/**
 * What a scanner recognises, and what it emits for it.  A run accepts exactly
 * the inputs that begin with a link (`Grammar.IsLink`, `Grammar.Source`)
 * followed by one more code, and then its effects are `Grammar.Expected`.
 */
module Theorems {
  import opened Wrappers
  import opened CharCodes
  import opened Scanner
  import opened Grammar
  import opened Phases

  /** The closure once the whole start marker has been consumed. */
  function StartDone(cfg: Config): Closure
  {
    Initial.(startMarkerCursor := |cfg.startMarker|)
  }

  lemma EmitTwice(a: seq<Event>, b: seq<Event>, t: Transition)
    ensures Emit(a, Emit(b, t)) == Emit(a + b, t)
  {
    assert a + (b + t.events) == (a + b) + t.events;
  }

  /** After the start marker, a character that is not a line ending opens the data and target spans and goes to the target. */
  lemma StartDoneDelegates(cfg: Config, code: Code)
    requires ValidConfig(cfg) && code.Char? && !IsLineEnding(code)
    ensures Dispatch(cfg, InStartMarker, StartDone(cfg), code) ==
            Emit([Close(cfg, Marker), Open(cfg, Data), Open(cfg, Target)], Dispatch(cfg, InTarget, StartDone(cfg), code))
  {
    var v := StartDone(cfg);
    EmitTwice([Close(cfg, Marker)], [Open(cfg, Data), Open(cfg, Target)], ConsumeTargetStep(cfg, v, code));
  }

  /** The start marker followed by a character that may begin a target: the opening effects, then the target state. */
  lemma OpeningRun(cfg: Config, x: seq<Code>)
    requires ValidConfig(cfg) && |x| > 0 && x[0].Char? && !IsLineEnding(x[0])
    ensures Scan(cfg, Lift(cfg.startMarker) + x) == Prepend(Opening(cfg), RunFrom(cfg, InTarget, StartDone(cfg), x))
  {
    var sm := cfg.startMarker;
    var input := Lift(sm) + x;
    var pre := [Open(cfg, Outer), Open(cfg, Marker)];
    var mid := ConsumeAll(Lift(sm));
    var post := [Close(cfg, Marker), Open(cfg, Data), Open(cfg, Target)];
    var tail := RunFrom(cfg, InTarget, StartDone(cfg), x);
    assert input[0] == Char(sm[0]);
    Delegates(cfg, Starting, InStartMarker, Initial, input, pre);
    assert sm[0..] == sm;
    MarkerRun(cfg, InStartMarker, Initial, x);
    assert WithCursor(InStartMarker, Initial, |sm|) == StartDone(cfg);
    StartDoneDelegates(cfg, x[0]);
    Delegates(cfg, InStartMarker, InTarget, StartDone(cfg), x, post);
    PrependTwice(mid, post, tail);
    PrependTwice(pre, mid + post, tail);
    assert pre + (mid + post) == Opening(cfg);
  }

  /** The end marker and one more code: the end marker is consumed and that code accepted. */
  lemma EndingRun(cfg: Config, v: Closure, c: Code, rest: seq<Code>)
    requires ValidConfig(cfg) && v.endMarkerCursor == 0
    ensures RunFrom(cfg, InEndMarker, v, Lift(cfg.endMarker) + [c] + rest) ==
            Result(ConsumeAll(Lift(cfg.endMarker)) + [Close(cfg, Marker), Close(cfg, Outer)], Ok(c))
  {
    var em := cfg.endMarker;
    assert em[0..] == em;
    assert Lift(em) + [c] + rest == Lift(em) + ([c] + rest);
    MarkerRun(cfg, InEndMarker, v, [c] + rest);
    var v' := WithCursor(InEndMarker, v, |em|);
    assert ([c] + rest)[0] == c;
    RunFromStep(cfg, InEndMarker, v', [c] + rest);
  }

  /** In the target state with content seen, the first end-marker character ends the target (when it does not begin the alias marker). */
  lemma TargetEnds(cfg: Config, v: Closure, c: Code, rest: seq<Code>)
    requires ValidConfig(cfg) && v.data && v.aliasCursor == 0 && v.endMarkerCursor == 0
    requires cfg.aliasMarker[0] != cfg.endMarker[0]
    ensures RunFrom(cfg, InTarget, v, Lift(cfg.endMarker) + [c] + rest) == Result(Closing(cfg, None), Ok(c))
  {
    var w := Lift(cfg.endMarker) + [c] + rest;
    var pre := [Close(cfg, Target), Close(cfg, Data), Open(cfg, Marker)];
    assert w[0] == Char(cfg.endMarker[0]);
    Delegates(cfg, InTarget, InEndMarker, v, w, pre);
    EndingRun(cfg, v, c, rest);
    assert pre + (ConsumeAll(Lift(cfg.endMarker)) + [Close(cfg, Marker), Close(cfg, Outer)]) ==
           [Close(cfg, Target), Close(cfg, Data)] + Ending(cfg);
  }

  /** In the alias state, the first end-marker character ends the alias and the data span. */
  lemma AliasEnds(cfg: Config, v: Closure, c: Code, rest: seq<Code>)
    requires ValidConfig(cfg) && v.endMarkerCursor == 0
    ensures RunFrom(cfg, InAlias, v, Lift(cfg.endMarker) + [c] + rest) ==
            Result([Close(cfg, Alias), Close(cfg, Data)] + Ending(cfg), Ok(c))
  {
    var w := Lift(cfg.endMarker) + [c] + rest;
    var pre := [Close(cfg, Alias), Close(cfg, Data), Open(cfg, Marker)];
    assert w[0] == Char(cfg.endMarker[0]);
    Delegates(cfg, InAlias, InEndMarker, v, w, pre);
    EndingRun(cfg, v, c, rest);
    assert pre + (ConsumeAll(Lift(cfg.endMarker)) + [Close(cfg, Marker), Close(cfg, Outer)]) ==
           [Close(cfg, Alias), Close(cfg, Data)] + Ending(cfg);
  }

  /** The alias marker fully consumed: the alias span is opened, the alias consumed, and the link closed. */
  lemma AliasTailRun(cfg: Config, v: Closure, a: seq<Code>, c: Code, rest: seq<Code>)
    requires ValidConfig(cfg) && v.aliasCursor == |cfg.aliasMarker| && v.endMarkerCursor == 0
    requires ValidAlias(cfg, a)
    ensures RunFrom(cfg, InAliasMarker, v, a + (Lift(cfg.endMarker) + [c] + rest)) ==
            Result([Close(cfg, AliasMarker), Open(cfg, Alias)] + (ConsumeAll(a) +
                   ([Close(cfg, Alias), Close(cfg, Data)] + Ending(cfg))), Ok(c))
  {
    var w := Lift(cfg.endMarker) + [c] + rest;
    var z := a + w;
    var pre := [Close(cfg, AliasMarker), Open(cfg, Alias)];
    assert |z| > 0 && z[0] == z[0];
    Delegates(cfg, InAliasMarker, InAlias, v, z, pre);
    AliasRun(cfg, v, a, w);
    var v' := v.(alias := v.alias || HasContent(a));
    AliasEnds(cfg, v', c, rest);
  }

  /** The closing effects after the target when there is an alias, from the alias-marker span on. */
  function AliasClosing(cfg: Config, a: seq<Code>): seq<Event>
  {
    ConsumeAll(Lift(cfg.aliasMarker)) + ([Close(cfg, AliasMarker), Open(cfg, Alias)] + (ConsumeAll(a) +
    ([Close(cfg, Alias), Close(cfg, Data)] + Ending(cfg))))
  }

  /** The alias marker, an alias and the end marker, from the alias-marker state. */
  lemma AliasMarkerRun(cfg: Config, v: Closure, a: seq<Code>, c: Code, rest: seq<Code>)
    requires ValidConfig(cfg) && v.aliasCursor == 0 && v.endMarkerCursor == 0
    requires ValidAlias(cfg, a)
    ensures RunFrom(cfg, InAliasMarker, v, Lift(cfg.aliasMarker) + (a + (Lift(cfg.endMarker) + [c] + rest))) ==
            Result(AliasClosing(cfg, a), Ok(c))
  {
    var am := cfg.aliasMarker;
    var v' := v.(aliasCursor := |am|);
    assert am[0..] == am;
    MarkerRun(cfg, InAliasMarker, v, a + (Lift(cfg.endMarker) + [c] + rest));
    assert WithCursor(InAliasMarker, v, |am|) == v';
    AliasTailRun(cfg, v', a, c, rest);
  }

  /** In the target state with content seen, the alias marker, an alias and the end marker close the link. */
  lemma TargetAliasEnds(cfg: Config, v: Closure, a: seq<Code>, c: Code, rest: seq<Code>)
    requires ValidConfig(cfg) && v.data && v.aliasCursor == 0 && v.endMarkerCursor == 0
    requires ValidAlias(cfg, a)
    ensures RunFrom(cfg, InTarget, v, Lift(cfg.aliasMarker) + a + Lift(cfg.endMarker) + [c] + rest) ==
            Result(Closing(cfg, Some(a)), Ok(c))
  {
    var y := Lift(cfg.aliasMarker) + (a + (Lift(cfg.endMarker) + [c] + rest));
    assert Lift(cfg.aliasMarker) + a + Lift(cfg.endMarker) + [c] + rest == y;
    var pre := [Close(cfg, Target), Open(cfg, AliasMarker)];
    assert y[0] == Char(cfg.aliasMarker[0]);
    Delegates(cfg, InTarget, InAliasMarker, v, y, pre);
    AliasMarkerRun(cfg, v, a, c, rest);
    assert pre + AliasClosing(cfg, a) == Closing(cfg, Some(a));
  }

  /** What follows the target: with an alias or without, the closing effects and `ok` on the code after the link. */
  lemma ClosingRun(cfg: Config, v: Closure, alias: Option<seq<Code>>, c: Code, rest: seq<Code>)
    requires ValidConfig(cfg) && v.data && v.aliasCursor == 0 && v.endMarkerCursor == 0
    requires match alias
             case Some(a) => ValidAlias(cfg, a)
             case None => cfg.aliasMarker[0] != cfg.endMarker[0]
    ensures RunFrom(cfg, InTarget, v, AliasPart(cfg, alias) + Lift(cfg.endMarker) + [c] + rest) ==
            Result(Closing(cfg, alias), Ok(c))
  {
    match alias
    case Some(a) =>
      TargetAliasEnds(cfg, v, a, c, rest);
    case None =>
      assert AliasPart(cfg, alias) + Lift(cfg.endMarker) + [c] + rest == Lift(cfg.endMarker) + [c] + rest;
      TargetEnds(cfg, v, c, rest);
  }

  /** A target begins with a real character that is not a line ending. */
  lemma TargetHead(cfg: Config, t: seq<Code>)
    requires ValidConfig(cfg) && ValidTarget(cfg, t)
    ensures |t| > 0 && t[0].Char? && !IsLineEnding(t[0])
  {
    var i :| 0 <= i < |t| && Visible(t[i]);
    assert TargetCode(cfg, t[0]);
  }

  /** The target state consumes a whole target and then knows it has seen content. */
  lemma WholeTargetRun(cfg: Config, t: seq<Code>, y: seq<Code>)
    requires ValidConfig(cfg) && ValidTarget(cfg, t)
    ensures RunFrom(cfg, InTarget, StartDone(cfg), t + y) ==
            Prepend(ConsumeAll(t), RunFrom(cfg, InTarget, StartDone(cfg).(data := true), y))
  {
    TargetRun(cfg, StartDone(cfg), t, y);
    assert StartDone(cfg).(data := StartDone(cfg).data || HasContent(t)) == StartDone(cfg).(data := true);
  }

  /** A link followed by more input, regrouped as the start marker and what follows it. */
  lemma SourceSplit(cfg: Config, t: seq<Code>, alias: Option<seq<Code>>, c: Code, rest: seq<Code>)
    ensures Source(cfg, t, alias) + [c] + rest ==
            Lift(cfg.startMarker) + (t + (AliasPart(cfg, alias) + Lift(cfg.endMarker) + [c] + rest))
  {
  }

  /**
   * Every link is recognised: fed a link and then any code `c`, a fresh run
   * emits exactly the link's spans and codes and answers `ok(c)`, whatever
   * input follows.
   */
  lemma AcceptsLink(cfg: Config, t: seq<Code>, alias: Option<seq<Code>>, c: Code, rest: seq<Code>)
    requires IsLink(cfg, t, alias)
    ensures Scan(cfg, Source(cfg, t, alias) + [c] + rest) == Result(Expected(cfg, t, alias), Ok(c))
  {
    var y := AliasPart(cfg, alias) + Lift(cfg.endMarker) + [c] + rest;
    SourceSplit(cfg, t, alias, c, rest);
    TargetHead(cfg, t);
    OpeningRun(cfg, t + y);
    WholeTargetRun(cfg, t, y);
    ClosingRun(cfg, StartDone(cfg).(data := true), alias, c, rest);
    ExpectedJoin(cfg, t, alias, c);
  }

  lemma ExpectedJoin(cfg: Config, t: seq<Code>, alias: Option<seq<Code>>, c: Code)
    ensures Prepend(Opening(cfg), Prepend(ConsumeAll(t), Result(Closing(cfg, alias), Ok(c)))) ==
            Result(Expected(cfg, t, alias), Ok(c))
  {
    assert Opening(cfg) + (ConsumeAll(t) + Closing(cfg, alias)) == Expected(cfg, t, alias);
  }

  /** After the start marker, the end of input or a line ending is refused. */
  lemma StartDoneRefuses(cfg: Config, code: Code)
    requires ValidConfig(cfg)
    ensures code.Eof? || IsLineEnding(code) ==> Dispatch(cfg, InStartMarker, StartDone(cfg), code).reply.Reject?
  {
  }

  /** An accepted run ends only after the end marker and one more code. */
  lemma EndAccepted(cfg: Config, v: Closure, w: seq<Code>) returns (rest: seq<Code>)
    requires ValidConfig(cfg) && v.endMarkerCursor == 0
    requires RunFrom(cfg, InEndMarker, v, w).verdict.Ok?
    ensures w == Lift(cfg.endMarker) + rest && rest != []
  {
    var em := cfg.endMarker;
    assert em[0..] == em;
    MarkerPrefix(cfg, InEndMarker, v, w);
    rest := w[|em|..];
    assert w == Lift(em) + rest;
    MarkerRun(cfg, InEndMarker, v, rest);
  }

  /** An accepted run begins with the start marker, and then a target state that goes on to accept. */
  lemma OpeningAccepted(cfg: Config, input: seq<Code>) returns (x: seq<Code>)
    requires ValidConfig(cfg) && Scan(cfg, input).verdict.Ok?
    ensures input == Lift(cfg.startMarker) + x
    ensures RunFrom(cfg, InTarget, StartDone(cfg), x).verdict.Ok?
  {
    var sm := cfg.startMarker;
    RunConsumesPrefix(cfg, Starting, Initial, input);
    EachCodeOneWay(cfg, Starting, Initial, input[0]);
    RefuseRun(cfg, Starting, Initial, input);
    Delegates(cfg, Starting, InStartMarker, Initial, input, [Open(cfg, Outer), Open(cfg, Marker)]);
    assert sm[0..] == sm;
    MarkerPrefix(cfg, InStartMarker, Initial, input);
    x := input[|sm|..];
    assert input == Lift(sm) + x;
    MarkerRun(cfg, InStartMarker, Initial, x);
    assert WithCursor(InStartMarker, Initial, |sm|) == StartDone(cfg);
    assert RunFrom(cfg, InStartMarker, StartDone(cfg), x).verdict.Ok?;
    RunConsumesPrefix(cfg, InStartMarker, StartDone(cfg), x);
    StartDoneRefuses(cfg, x[0]);
    RefuseRun(cfg, InStartMarker, StartDone(cfg), x);
    StartDoneDelegates(cfg, x[0]);
    Delegates(cfg, InStartMarker, InTarget, StartDone(cfg), x, [Close(cfg, Marker), Open(cfg, Data), Open(cfg, Target)]);
  }

  /** From the alias state on: an accepted run has an alias, the end marker and one more code. */
  lemma AliasBodyAccepted(cfg: Config, v: Closure, z: seq<Code>) returns (a: seq<Code>, rest: seq<Code>)
    requires ValidConfig(cfg) && v.endMarkerCursor == 0
    requires RunFrom(cfg, InAlias, v, z).verdict.Ok?
    ensures ValidAlias(cfg, a) && z == a + Lift(cfg.endMarker) + rest && rest != []
  {
    var n := AliasPrefix(cfg, v, z);
    a := z[..n];
    var w := z[n..];
    assert z == a + w;
    AliasRun(cfg, v, a, w);
    var v' := v.(alias := v.alias || HasContent(a));
    assert RunFrom(cfg, InAlias, v', w).verdict.Ok?;
    assert w[0] == Char(cfg.endMarker[0]);
    Delegates(cfg, InAlias, InEndMarker, v', w, [Close(cfg, Alias), Close(cfg, Data), Open(cfg, Marker)]);
    rest := EndAccepted(cfg, v', w);
  }

  /** An accepted run from the alias-marker state begins with the alias marker. */
  lemma AliasMarkerAccepted(cfg: Config, v: Closure, y: seq<Code>) returns (z: seq<Code>)
    requires ValidConfig(cfg) && v.aliasCursor == 0
    requires RunFrom(cfg, InAliasMarker, v, y).verdict.Ok?
    ensures y == Lift(cfg.aliasMarker) + z
    ensures RunFrom(cfg, InAliasMarker, v.(aliasCursor := |cfg.aliasMarker|), z).verdict.Ok?
  {
    var am := cfg.aliasMarker;
    assert am[0..] == am;
    MarkerPrefix(cfg, InAliasMarker, v, y);
    z := y[|am|..];
    assert y == Lift(am) + z;
    MarkerRun(cfg, InAliasMarker, v, z);
    assert WithCursor(InAliasMarker, v, |am|) == v.(aliasCursor := |am|);
  }

  /** Once the alias marker is consumed, an accepted run goes on in the alias state. */
  lemma AliasMarkerDoneAccepted(cfg: Config, v: Closure, z: seq<Code>)
    requires ValidConfig(cfg) && v.aliasCursor == |cfg.aliasMarker|
    requires RunFrom(cfg, InAliasMarker, v, z).verdict.Ok?
    ensures RunFrom(cfg, InAlias, v, z).verdict.Ok?
  {
    RunConsumesPrefix(cfg, InAliasMarker, v, z);
    Delegates(cfg, InAliasMarker, InAlias, v, z, [Close(cfg, AliasMarker), Open(cfg, Alias)]);
  }

  /** From the alias marker on: an accepted run has the alias marker, an alias, the end marker and one more code. */
  lemma AliasAccepted(cfg: Config, v: Closure, y: seq<Code>) returns (a: seq<Code>, rest: seq<Code>)
    requires ValidConfig(cfg) && v.aliasCursor == 0 && v.endMarkerCursor == 0
    requires RunFrom(cfg, InAliasMarker, v, y).verdict.Ok?
    ensures ValidAlias(cfg, a) && y == Lift(cfg.aliasMarker) + a + Lift(cfg.endMarker) + rest && rest != []
  {
    var v' := v.(aliasCursor := |cfg.aliasMarker|);
    var z := AliasMarkerAccepted(cfg, v, y);
    AliasMarkerDoneAccepted(cfg, v', z);
    a, rest := AliasBodyAccepted(cfg, v', z);
    assert y == Lift(cfg.aliasMarker) + a + Lift(cfg.endMarker) + rest;
  }

  /** What follows an accepted target: an optional alias, the end marker and one more code. */
  lemma ClosingAccepted(cfg: Config, v: Closure, y: seq<Code>) returns (alias: Option<seq<Code>>, rest: seq<Code>)
    requires ValidConfig(cfg) && v.data && v.aliasCursor == 0 && v.endMarkerCursor == 0
    requires RunFrom(cfg, InTarget, v, y).verdict.Ok?
    requires |y| > 0 && (y[0] == Char(cfg.aliasMarker[0]) || y[0] == Char(cfg.endMarker[0]))
    ensures match alias
            case Some(a) => ValidAlias(cfg, a)
            case None => cfg.aliasMarker[0] != cfg.endMarker[0]
    ensures y == AliasPart(cfg, alias) + Lift(cfg.endMarker) + rest && rest != []
  {
    if y[0] == Char(cfg.aliasMarker[0]) {
      Delegates(cfg, InTarget, InAliasMarker, v, y, [Close(cfg, Target), Open(cfg, AliasMarker)]);
      var a;
      a, rest := AliasAccepted(cfg, v, y);
      alias := Some(a);
    } else {
      Delegates(cfg, InTarget, InEndMarker, v, y, [Close(cfg, Target), Close(cfg, Data), Open(cfg, Marker)]);
      rest := EndAccepted(cfg, v, y);
      alias := None;
    }
  }

  /** From the target state on: an accepted run has a target, then the first character of the alias or end marker. */
  lemma TargetAccepted(cfg: Config, x: seq<Code>) returns (t: seq<Code>, y: seq<Code>)
    requires ValidConfig(cfg) && RunFrom(cfg, InTarget, StartDone(cfg), x).verdict.Ok?
    ensures ValidTarget(cfg, t) && x == t + y
    ensures |y| > 0 && (y[0] == Char(cfg.aliasMarker[0]) || y[0] == Char(cfg.endMarker[0]))
    ensures RunFrom(cfg, InTarget, StartDone(cfg).(data := true), y).verdict.Ok?
  {
    var n := TargetPrefix(cfg, StartDone(cfg), x);
    t := x[..n];
    y := x[n..];
    assert x == t + y;
    TargetRun(cfg, StartDone(cfg), t, y);
    assert StartDone(cfg).(data := StartDone(cfg).data || HasContent(t)) == StartDone(cfg).(data := true);
  }

  /** Every accepted run began with a link, and went on past it by one code. */
  lemma AcceptedIsLink(cfg: Config, input: seq<Code>) returns (t: seq<Code>, alias: Option<seq<Code>>, rest: seq<Code>)
    requires ValidConfig(cfg) && Scan(cfg, input).verdict.Ok?
    ensures IsLink(cfg, t, alias) && input == Source(cfg, t, alias) + rest && rest != []
  {
    var x := OpeningAccepted(cfg, input);
    var y;
    t, y := TargetAccepted(cfg, x);
    alias, rest := ClosingAccepted(cfg, StartDone(cfg).(data := true), y);
    SourceJoin(cfg, t, alias, x, y, rest);
  }

  lemma SourceJoin(cfg: Config, t: seq<Code>, alias: Option<seq<Code>>, x: seq<Code>, y: seq<Code>, rest: seq<Code>)
    requires x == t + y && y == AliasPart(cfg, alias) + Lift(cfg.endMarker) + rest
    ensures Lift(cfg.startMarker) + x == Source(cfg, t, alias) + rest
  {
  }

  /**
   * A run accepts exactly when its input begins with a link and does not end
   * there; it then emits that link's effects and accepts the code after it.
   */
  lemma Recognises(cfg: Config, input: seq<Code>)
    requires ValidConfig(cfg)
    ensures Scan(cfg, input).verdict.Ok? <==>
            exists t, alias :: IsLink(cfg, t, alias) && Source(cfg, t, alias) < input
  {
    if Scan(cfg, input).verdict.Ok? {
      var t, alias, rest := AcceptedIsLink(cfg, input);
      assert Source(cfg, t, alias) < input;
    }
    if exists t, alias :: IsLink(cfg, t, alias) && Source(cfg, t, alias) < input {
      var t, alias :| IsLink(cfg, t, alias) && Source(cfg, t, alias) < input;
      AcceptedFrom(cfg, t, alias, input);
    }
  }

  /** A link that is a proper prefix of the input: the run accepts the code after it, having emitted the link's effects. */
  lemma AcceptedFrom(cfg: Config, t: seq<Code>, alias: Option<seq<Code>>, input: seq<Code>)
    requires IsLink(cfg, t, alias) && Source(cfg, t, alias) < input
    ensures Scan(cfg, input) == Result(Expected(cfg, t, alias), Ok(input[|Source(cfg, t, alias)|]))
  {
    var n := |Source(cfg, t, alias)|;
    assert input == Source(cfg, t, alias) + [input[n]] + input[n + 1..];
    AcceptsLink(cfg, t, alias, input[n], input[n + 1..]);
  }
}
