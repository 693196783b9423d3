/**
 * The rejections a scanner makes, and what its `alias` flag does not do.
 */
module Properties {
  import opened CharCodes
  import opened Scanner
  import opened Grammar
  import opened Phases
  import opened Theorems

  /** A run that refuses its first code emits nothing at all: the host never sees a span begin. */
  lemma FirstCodeDecides(cfg: Config, input: seq<Code>)
    requires |input| > 0 && !Matches(input[0], cfg.startMarker, 0)
    ensures Scan(cfg, input) == Result([], Nok(input[0]))
  {
    EachCodeOneWay(cfg, Starting, Initial, input[0]);
    RunFromStep(cfg, Starting, Initial, input);
  }

  /** The start marker must match in full: a code that breaks it after `j > 0` matching codes is refused. */
  lemma BrokenStartMarker(cfg: Config, input: seq<Code>, j: nat)
    requires 0 < j < |cfg.startMarker| && j < |input|
    requires input[..j] == Lift(cfg.startMarker[..j])
    requires !Matches(input[j], cfg.startMarker, j)
    ensures Scan(cfg, input).verdict == Nok(input[j])
  {
    assert input[0] == input[..j][0];
    Delegates(cfg, Starting, InStartMarker, Initial, input, [Open(cfg, Outer), Open(cfg, Marker)]);
    assert cfg.startMarker[0..j] == cfg.startMarker[..j];
    MarkerMismatch(cfg, InStartMarker, Initial, input, j);
  }

  /**
   * After the start marker and target codes `b`, the run is in the target
   * state, with `data` set exactly when `b` has content.
   */
  lemma AfterTarget(cfg: Config, b: seq<Code>, y: seq<Code>)
    requires ValidConfig(cfg) && forall i :: 0 <= i < |b| ==> TargetCode(cfg, b[i])
    requires |b| > 0 || (|y| > 0 && y[0].Char? && !IsLineEnding(y[0]))
    ensures Scan(cfg, Lift(cfg.startMarker) + (b + y)).verdict ==
            RunFrom(cfg, InTarget, StartDone(cfg).(data := HasContent(b)), y).verdict
  {
    if |b| > 0 {
      assert TargetCode(cfg, b[0]);
      CodesCons(b, y);
    } else {
      assert b + y == y;
    }
    OpeningRun(cfg, b + y);
    TargetRun(cfg, StartDone(cfg), b, y);
    assert StartDone(cfg).(data := StartDone(cfg).data || HasContent(b)) == StartDone(cfg).(data := HasContent(b));
  }

  /**
   * A target with no content is refused at the first character of the alias
   * marker or the end marker: `[[]]`, `[[ ]]` and `[[|x]]` are not links.
   */
  lemma BlankTargetRejected(cfg: Config, b: seq<Code>, e: Code, rest: seq<Code>)
    requires ValidConfig(cfg) && forall i :: 0 <= i < |b| ==> TargetCode(cfg, b[i])
    requires !HasContent(b)
    requires e == Char(cfg.aliasMarker[0]) || e == Char(cfg.endMarker[0])
    ensures Scan(cfg, Lift(cfg.startMarker) + b + [e] + rest).verdict == Nok(e)
  {
    assert Lift(cfg.startMarker) + b + [e] + rest == Lift(cfg.startMarker) + (b + ([e] + rest));
    AfterTarget(cfg, b, [e] + rest);
    RefuseRun(cfg, InTarget, StartDone(cfg), [e] + rest);
  }

  /** The end of input or a line ending between the start marker and the alias marker or end marker is refused. */
  lemma TargetBreakRejected(cfg: Config, b: seq<Code>, e: Code, rest: seq<Code>)
    requires ValidConfig(cfg) && forall i :: 0 <= i < |b| ==> TargetCode(cfg, b[i])
    requires e.Eof? || IsLineEnding(e)
    ensures Scan(cfg, Lift(cfg.startMarker) + b + [e] + rest).verdict == Nok(e)
  {
    var input := Lift(cfg.startMarker) + b + [e] + rest;
    if b == [] {
      assert input == Lift(cfg.startMarker) + ([e] + rest);
      assert input[0] == Char(cfg.startMarker[0]);
      Delegates(cfg, Starting, InStartMarker, Initial, input, [Open(cfg, Outer), Open(cfg, Marker)]);
      assert cfg.startMarker[0..] == cfg.startMarker;
      MarkerRun(cfg, InStartMarker, Initial, [e] + rest);
      assert WithCursor(InStartMarker, Initial, |cfg.startMarker|) == StartDone(cfg);
      StartDoneRefuses(cfg, e);
      RefuseRun(cfg, InStartMarker, StartDone(cfg), [e] + rest);
    } else {
      assert input == Lift(cfg.startMarker) + (b + ([e] + rest));
      AfterTarget(cfg, b, [e] + rest);
      RefuseRun(cfg, InTarget, StartDone(cfg).(data := HasContent(b)), [e] + rest);
    }
  }

  /** From the alias-marker state, the alias marker and alias codes lead to the alias state. */
  lemma AliasReached(cfg: Config, v: Closure, a: seq<Code>, w: seq<Code>)
    requires ValidConfig(cfg) && v.aliasCursor == 0 && v.endMarkerCursor == 0 && ValidAlias(cfg, a) && |w| > 0
    ensures RunFrom(cfg, InAliasMarker, v, Lift(cfg.aliasMarker) + (a + w)).verdict ==
            RunFrom(cfg, InAlias, v.(aliasCursor := |cfg.aliasMarker|, alias := v.alias || HasContent(a)), w).verdict
  {
    var am := cfg.aliasMarker;
    var v4 := v.(aliasCursor := |am|);
    assert am[0..] == am;
    MarkerRun(cfg, InAliasMarker, v, a + w);
    assert WithCursor(InAliasMarker, v, |am|) == v4;
    assert |a + w| > 0 && (a + w)[0] == (a + w)[0];
    Delegates(cfg, InAliasMarker, InAlias, v4, a + w, [Close(cfg, AliasMarker), Open(cfg, Alias)]);
    AliasRun(cfg, v4, a, w);
  }

  /** The end of input or a line ending inside an alias is refused: `[[a|b` at the end of a line is not a link. */
  lemma AliasBreakRejected(cfg: Config, t: seq<Code>, a: seq<Code>, e: Code, rest: seq<Code>)
    requires ValidConfig(cfg) && ValidTarget(cfg, t) && ValidAlias(cfg, a)
    requires e.Eof? || IsLineEnding(e)
    ensures Scan(cfg, Lift(cfg.startMarker) + t + Lift(cfg.aliasMarker) + a + [e] + rest).verdict == Nok(e)
  {
    var w := [e] + rest;
    var y := Lift(cfg.aliasMarker) + (a + w);
    assert Lift(cfg.startMarker) + t + Lift(cfg.aliasMarker) + a + [e] + rest == Lift(cfg.startMarker) + (t + y);
    TargetHead(cfg, t);
    AfterTarget(cfg, t, y);
    var v := StartDone(cfg).(data := true);
    assert y[0] == Char(cfg.aliasMarker[0]);
    Delegates(cfg, InTarget, InAliasMarker, v, y, [Close(cfg, Target), Open(cfg, AliasMarker)]);
    AliasReached(cfg, v, a, w);
    RefuseRun(cfg, InAlias, v.(aliasCursor := |cfg.aliasMarker|, alias := v.alias || HasContent(a)), w);
  }

  /**
   * The first end-marker character in a target commits to the end marker:
   * a code that breaks the rest of it is refused, so `[[a]b]]` is not a link.
   */
  lemma EndMarkerMustComplete(cfg: Config, t: seq<Code>, w: seq<Code>, j: nat)
    requires ValidConfig(cfg) && ValidTarget(cfg, t) && cfg.aliasMarker[0] != cfg.endMarker[0]
    requires 0 < j < |cfg.endMarker| && j < |w|
    requires w[..j] == Lift(cfg.endMarker[..j]) && !Matches(w[j], cfg.endMarker, j)
    ensures Scan(cfg, Lift(cfg.startMarker) + t + w).verdict == Nok(w[j])
  {
    assert Lift(cfg.startMarker) + t + w == Lift(cfg.startMarker) + (t + w);
    TargetHead(cfg, t);
    AfterTarget(cfg, t, w);
    var v := StartDone(cfg).(data := true);
    assert w[0] == w[..j][0];
    Delegates(cfg, InTarget, InEndMarker, v, w, [Close(cfg, Target), Close(cfg, Data), Open(cfg, Marker)]);
    assert cfg.endMarker[0..j] == cfg.endMarker[..j];
    MarkerMismatch(cfg, InEndMarker, v, w, j);
  }

  /** Likewise the first character of a multi-character alias marker commits to the whole marker. */
  lemma DividerMustComplete(cfg: Config, t: seq<Code>, w: seq<Code>, j: nat)
    requires ValidConfig(cfg) && ValidTarget(cfg, t)
    requires 0 < j < |cfg.aliasMarker| && j < |w|
    requires w[..j] == Lift(cfg.aliasMarker[..j]) && !Matches(w[j], cfg.aliasMarker, j)
    ensures Scan(cfg, Lift(cfg.startMarker) + t + w).verdict == Nok(w[j])
  {
    assert Lift(cfg.startMarker) + t + w == Lift(cfg.startMarker) + (t + w);
    TargetHead(cfg, t);
    AfterTarget(cfg, t, w);
    var v := StartDone(cfg).(data := true);
    assert w[0] == w[..j][0];
    Delegates(cfg, InTarget, InAliasMarker, v, w, [Close(cfg, Target), Open(cfg, AliasMarker)]);
    assert cfg.aliasMarker[0..j] == cfg.aliasMarker[..j];
    MarkerMismatch(cfg, InAliasMarker, v, w, j);
  }

  /**
   * No run gets past a line ending or the end of input: whatever state it is
   * in, it answers by then, having consumed only codes before it.
   */
  lemma {:induction false} StopsAtLineEnding(cfg: Config, s: State, v: Closure, input: seq<Code>, j: nat)
    requires j < |input| && (input[j].Eof? || IsLineEnding(input[j]))
    ensures !RunFrom(cfg, s, v, input).verdict.NeedMore?
    ensures |Consumed(RunFrom(cfg, s, v, input).events)| <= j
    decreases j
  {
    var t := Dispatch(cfg, s, v, input[0]);
    EachCodeOneWay(cfg, s, v, input[0]);
    RunFromStep(cfg, s, v, input);
    if t.reply.Next? {
      var rest := RunFrom(cfg, t.reply.state, t.vars, input[1..]);
      assert j > 0;
      StopsAtLineEnding(cfg, t.reply.state, t.vars, input[1..], j - 1);
      ConsumedAppend(t.events, rest.events);
    }
  }

  /**
   * What the host sees: its input always ends with the end-of-input code, so
   * a run never waits for more, and it is refused exactly when no link is a
   * prefix of that input.
   */
  lemma HostInputDecided(cfg: Config, input: seq<Code>)
    requires ValidConfig(cfg)
    ensures !Scan(cfg, input + [Eof]).verdict.NeedMore?
    ensures Scan(cfg, input + [Eof]).verdict.Nok? <==>
            !exists t, alias :: IsLink(cfg, t, alias) && Source(cfg, t, alias) < input + [Eof]
  {
    StopsAtLineEnding(cfg, Starting, Initial, input + [Eof], |input|);
    Recognises(cfg, input + [Eof]);
  }

  /** Two closures that differ at most in the `alias` flag. */
  predicate SameButAlias(v1: Closure, v2: Closure)
  {
    v1.(alias := false) == v2.(alias := false)
  }

  /** Two verdicts that differ at most in the `alias` flag of a suspended run. */
  predicate SameVerdict(r1: Verdict, r2: Verdict)
  {
    match r1
    case NeedMore(s, v) => r2.NeedMore? && r2.state == s && SameButAlias(v, r2.vars)
    case _ => r1 == r2
  }

  /** Two transitions that differ at most in the `alias` flag they leave. */
  predicate SameStep(t1: Transition, t2: Transition)
  {
    t1.events == t2.events && t1.reply == t2.reply && SameButAlias(t1.vars, t2.vars)
  }

  lemma EndIgnoresAlias(cfg: Config, v1: Closure, v2: Closure, code: Code)
    requires SameButAlias(v1, v2)
    ensures SameStep(ConsumeEndStep(cfg, v1, code), ConsumeEndStep(cfg, v2, code))
  {
    assert v1.endMarkerCursor == v2.endMarkerCursor;
  }

  lemma AliasIgnoresAlias(cfg: Config, v1: Closure, v2: Closure, code: Code)
    requires SameButAlias(v1, v2)
    ensures SameStep(ConsumeAliasStep(cfg, v1, code), ConsumeAliasStep(cfg, v2, code))
  {
    assert v1.endMarkerCursor == v2.endMarkerCursor;
    EndIgnoresAlias(cfg, v1, v2, code);
  }

  lemma AliasMarkerIgnoresAlias(cfg: Config, v1: Closure, v2: Closure, code: Code)
    requires SameButAlias(v1, v2)
    ensures SameStep(ConsumeAliasMarkerStep(cfg, v1, code), ConsumeAliasMarkerStep(cfg, v2, code))
  {
    assert v1.aliasCursor == v2.aliasCursor;
    AliasIgnoresAlias(cfg, v1, v2, code);
  }

  lemma TargetIgnoresAlias(cfg: Config, v1: Closure, v2: Closure, code: Code)
    requires SameButAlias(v1, v2)
    ensures SameStep(ConsumeTargetStep(cfg, v1, code), ConsumeTargetStep(cfg, v2, code))
  {
    assert v1.aliasCursor == v2.aliasCursor && v1.endMarkerCursor == v2.endMarkerCursor && v1.data == v2.data;
    AliasMarkerIgnoresAlias(cfg, v1, v2, code);
    EndIgnoresAlias(cfg, v1, v2, code);
  }

  lemma StartIgnoresAlias(cfg: Config, v1: Closure, v2: Closure, code: Code)
    requires SameButAlias(v1, v2)
    ensures SameStep(ConsumeStartStep(cfg, v1, code), ConsumeStartStep(cfg, v2, code))
    ensures SameStep(StartStep(cfg, v1, code), StartStep(cfg, v2, code))
  {
    assert v1.startMarkerCursor == v2.startMarkerCursor;
    TargetIgnoresAlias(cfg, v1, v2, code);
  }

  /** One step does not look at the `alias` flag. */
  lemma StepIgnoresAlias(cfg: Config, s: State, v1: Closure, v2: Closure, code: Code)
    requires SameButAlias(v1, v2)
    ensures SameStep(Dispatch(cfg, s, v1, code), Dispatch(cfg, s, v2, code))
  {
    match s
    case Starting => StartIgnoresAlias(cfg, v1, v2, code);
    case InStartMarker => StartIgnoresAlias(cfg, v1, v2, code);
    case InTarget => TargetIgnoresAlias(cfg, v1, v2, code);
    case InAliasMarker => AliasMarkerIgnoresAlias(cfg, v1, v2, code);
    case InAlias => AliasIgnoresAlias(cfg, v1, v2, code);
    case InEndMarker => EndIgnoresAlias(cfg, v1, v2, code);
  }

  /**
   * The `alias` flag is written but never read: a run's effects and verdict
   * do not depend on it, so an empty alias is never refused for being empty.
   */
  lemma {:induction false} AliasFlagUnused(cfg: Config, s: State, v1: Closure, v2: Closure, input: seq<Code>)
    requires SameButAlias(v1, v2)
    ensures RunFrom(cfg, s, v1, input).events == RunFrom(cfg, s, v2, input).events
    ensures SameVerdict(RunFrom(cfg, s, v1, input).verdict, RunFrom(cfg, s, v2, input).verdict)
    decreases |input|
  {
    if input != [] {
      var t1, t2 := Dispatch(cfg, s, v1, input[0]), Dispatch(cfg, s, v2, input[0]);
      StepIgnoresAlias(cfg, s, v1, v2, input[0]);
      RunFromStep(cfg, s, v1, input);
      RunFromStep(cfg, s, v2, input);
      if t1.reply.Next? {
        AliasFlagUnused(cfg, t1.reply.state, t1.vars, t2.vars, input[1..]);
      }
    }
  }
}
