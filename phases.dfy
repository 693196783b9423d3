/**
 * How a run goes through each part of a link: the start, the three marker
 * literals, the target and the alias.  These are the building blocks of the
 * theorems in `Theorems`.
 */
module Phases {
  import opened CharCodes
  import opened Scanner
  import opened Grammar

  /** A state function handing its code on to another: the run is the other's run after the effects `pre`. */
  lemma Delegates(cfg: Config, s1: State, s2: State, v: Closure, input: seq<Code>, pre: seq<Event>)
    requires |input| > 0
    requires Dispatch(cfg, s1, v, input[0]) == Emit(pre, Dispatch(cfg, s2, v, input[0]))
    ensures RunFrom(cfg, s1, v, input) == Prepend(pre, RunFrom(cfg, s2, v, input))
  {
    RunFromStep(cfg, s1, v, input);
    RunFromStep(cfg, s2, v, input);
    var t := Dispatch(cfg, s2, v, input[0]);
    if t.reply.Next? {
      PrependTwice(pre, t.events, RunFrom(cfg, t.reply.state, t.vars, input[1..]));
    }
  }

  /** A step that consumes its code and moves on: the run is that consume followed by the rest of the run. */
  lemma ConsumeRun(cfg: Config, s: State, v: Closure, input: seq<Code>, s': State, v': Closure)
    requires |input| > 0
    requires Dispatch(cfg, s, v, input[0]) == Transition([Consume(input[0])], Next(s'), v')
    ensures RunFrom(cfg, s, v, input) == Prepend([Consume(input[0])], RunFrom(cfg, s', v', input[1..]))
  {
    RunFromStep(cfg, s, v, input);
  }

  /** A step that refuses its code ends the run with `nok`. */
  lemma RefuseRun(cfg: Config, s: State, v: Closure, input: seq<Code>)
    requires |input| > 0
    ensures Dispatch(cfg, s, v, input[0]).reply.Reject? ==> RunFrom(cfg, s, v, input).verdict == Nok(input[0])
  {
    RunFromStep(cfg, s, v, input);
  }

  /** The three states that match a marker literal character by character. */
  predicate IsMarkerState(s: State)
  {
    s.InStartMarker? || s.InAliasMarker? || s.InEndMarker?
  }

  function MarkerOf(cfg: Config, s: State): seq<CodeUnit>
    requires IsMarkerState(s)
  {
    match s
    case InStartMarker => cfg.startMarker
    case InAliasMarker => cfg.aliasMarker
    case InEndMarker => cfg.endMarker
  }

  function CursorOf(s: State, v: Closure): nat
    requires IsMarkerState(s)
  {
    match s
    case InStartMarker => v.startMarkerCursor
    case InAliasMarker => v.aliasCursor
    case InEndMarker => v.endMarkerCursor
  }

  function WithCursor(s: State, v: Closure, k: nat): Closure
    requires IsMarkerState(s)
  {
    match s
    case InStartMarker => v.(startMarkerCursor := k)
    case InAliasMarker => v.(aliasCursor := k)
    case InEndMarker => v.(endMarkerCursor := k)
  }

  /** Setting a marker state's cursor: it reads back, a second setting overrides the first, and setting it to its own value changes nothing. */
  lemma CursorFacts(s: State, v: Closure, a: nat, b: nat)
    requires IsMarkerState(s)
    ensures CursorOf(s, WithCursor(s, v, a)) == a
    ensures WithCursor(s, WithCursor(s, v, a), b) == WithCursor(s, v, b)
    ensures WithCursor(s, v, CursorOf(s, v)) == v
  {
  }

  /** One code in a marker state: the next literal character is consumed, anything else refused. */
  lemma MarkerStep(cfg: Config, s: State, v: Closure, code: Code)
    requires IsMarkerState(s) && CursorOf(s, v) < |MarkerOf(cfg, s)|
    ensures Matches(code, MarkerOf(cfg, s), CursorOf(s, v)) ==>
              Dispatch(cfg, s, v, code) == Transition([Consume(code)], Next(s), WithCursor(s, v, CursorOf(s, v) + 1))
    ensures !Matches(code, MarkerOf(cfg, s), CursorOf(s, v)) ==>
              Dispatch(cfg, s, v, code) == Transition([], Reject(code), v)
  {
  }

  /** One matching code in a marker state: the run consumes it and goes on with the cursor advanced. */
  lemma MarkerConsume(cfg: Config, s: State, v: Closure, input: seq<Code>)
    requires IsMarkerState(s) && CursorOf(s, v) < |MarkerOf(cfg, s)| && |input| > 0
    requires input[0] == Char(MarkerOf(cfg, s)[CursorOf(s, v)])
    ensures RunFrom(cfg, s, v, input) ==
            Prepend([Consume(input[0])], RunFrom(cfg, s, WithCursor(s, v, CursorOf(s, v) + 1), input[1..]))
  {
    MarkerStep(cfg, s, v, input[0]);
    ConsumeRun(cfg, s, v, input, s, WithCursor(s, v, CursorOf(s, v) + 1));
  }

  /** A marker state consumes the rest of its literal and then sits at the literal's end. */
  lemma {:induction false} MarkerRun(cfg: Config, s: State, v: Closure, rest: seq<Code>)
    requires IsMarkerState(s) && CursorOf(s, v) <= |MarkerOf(cfg, s)|
    ensures var m, k := MarkerOf(cfg, s), CursorOf(s, v);
            RunFrom(cfg, s, v, Lift(m[k..]) + rest) ==
            Prepend(ConsumeAll(Lift(m[k..])), RunFrom(cfg, s, WithCursor(s, v, |m|), rest))
    decreases |MarkerOf(cfg, s)| - CursorOf(s, v)
  {
    var m, k := MarkerOf(cfg, s), CursorOf(s, v);
    if k < |m| {
      var v' := WithCursor(s, v, k + 1);
      var input := Lift(m[k..]) + rest;
      var more := Lift(m[k + 1..]);
      var tail := RunFrom(cfg, s, WithCursor(s, v, |m|), rest);
      LiteralCons(m, k, rest);
      assert RunFrom(cfg, s, v, input) == Prepend([Consume(Char(m[k]))], RunFrom(cfg, s, v', more + rest)) by {
        MarkerConsume(cfg, s, v, input);
      }
      assert RunFrom(cfg, s, v', more + rest) == Prepend(ConsumeAll(more), tail) by {
        CursorFacts(s, v, k + 1, |m|);
        MarkerRun(cfg, s, v', rest);
      }
      PrependTwice([Consume(Char(m[k]))], ConsumeAll(more), tail);
    } else {
      LiteralDone(m, rest, RunFrom(cfg, s, v, rest));
      CursorFacts(s, v, 0, 0);
    }
  }

  /** A marker state that has matched `j` more characters refuses a code that breaks the literal. */
  lemma {:induction false} MarkerMismatch(cfg: Config, s: State, v: Closure, input: seq<Code>, j: nat)
    requires IsMarkerState(s) && CursorOf(s, v) + j < |MarkerOf(cfg, s)| && j < |input|
    requires input[..j] == Lift(MarkerOf(cfg, s)[CursorOf(s, v)..CursorOf(s, v) + j])
    requires !Matches(input[j], MarkerOf(cfg, s), CursorOf(s, v) + j)
    ensures RunFrom(cfg, s, v, input).verdict == Nok(input[j])
    decreases j
  {
    var m, k := MarkerOf(cfg, s), CursorOf(s, v);
    if j > 0 {
      var v' := WithCursor(s, v, k + 1);
      LiteralSliceCons(m, k, j, input);
      assert RunFrom(cfg, s, v, input).verdict == RunFrom(cfg, s, v', input[1..]).verdict by {
        MarkerConsume(cfg, s, v, input);
      }
      CursorFacts(s, v, k + 1, 0);
      MarkerMismatch(cfg, s, v', input[1..], j - 1);
    } else {
      MarkerStep(cfg, s, v, input[0]);
      RefuseRun(cfg, s, v, input);
    }
  }

  /** An accepted run from a marker state that has not finished its literal starts with the literal's next character. */
  lemma MarkerOkHead(cfg: Config, s: State, v: Closure, input: seq<Code>)
    requires IsMarkerState(s) && CursorOf(s, v) < |MarkerOf(cfg, s)|
    requires RunFrom(cfg, s, v, input).verdict.Ok?
    ensures |input| > 0 && input[0] == Char(MarkerOf(cfg, s)[CursorOf(s, v)])
  {
    RunConsumesPrefix(cfg, s, v, input);
    MarkerStep(cfg, s, v, input[0]);
    RefuseRun(cfg, s, v, input);
  }

  lemma LiftCons(m: seq<CodeUnit>, k: nat)
    requires k < |m|
    ensures Lift(m[k..]) == [Char(m[k])] + Lift(m[k + 1..])
  {
  }

  /** The rest of a literal from `k` is its `k`th character followed by the rest from `k + 1`. */
  lemma LiteralCons(m: seq<CodeUnit>, k: nat, rest: seq<Code>)
    requires k < |m|
    ensures |Lift(m[k..]) + rest| > 0
    ensures (Lift(m[k..]) + rest)[0] == Char(m[k])
    ensures (Lift(m[k..]) + rest)[1..] == Lift(m[k + 1..]) + rest
    ensures ConsumeAll(Lift(m[k..])) == [Consume(Char(m[k]))] + ConsumeAll(Lift(m[k + 1..]))
  {
    LiftCons(m, k);
    assert Lift(m[k..]) + rest == [Char(m[k])] + (Lift(m[k + 1..]) + rest);
  }

  /** Nothing of a literal is left once the cursor is at its end. */
  lemma LiteralDone(m: seq<CodeUnit>, rest: seq<Code>, r: Result)
    ensures Lift(m[|m|..]) + rest == rest
    ensures Prepend(ConsumeAll(Lift(m[|m|..])), r) == r
  {
    assert Lift(m[|m|..]) == [];
    assert [] + r.events == r.events;
  }

  /** Input that begins with `j > 0` characters of a literal from `k`: its head is the `k`th, its tail begins with `j - 1` from `k + 1`. */
  lemma LiteralSliceCons(m: seq<CodeUnit>, k: nat, j: nat, input: seq<Code>)
    requires 0 < j <= |input| && k + j <= |m|
    requires input[..j] == Lift(m[k..k + j])
    ensures input[0] == Char(m[k])
    ensures input[1..][..j - 1] == Lift(m[k + 1..k + j])
  {
    assert input[0] == input[..j][0];
    assert input[1..][..j - 1] == input[..j][1..];
    assert Lift(m[k..k + j])[1..] == Lift(m[k + 1..k + j]);
  }

  lemma PrefixCons(x: Code, a: seq<Code>, b: seq<Code>)
    requires a <= b
    ensures [x] + a <= [x] + b
  {
    assert ([x] + b)[..|a| + 1] == [x] + b[..|a|];
  }

  lemma LiteralPrefixCons(m: seq<CodeUnit>, k: nat, input: seq<Code>)
    requires k < |m| && |input| > 0 && input[0] == Char(m[k])
    requires Lift(m[k + 1..]) <= input[1..]
    ensures Lift(m[k..]) <= input
  {
    LiftCons(m, k);
    PrefixCons(input[0], Lift(m[k + 1..]), input[1..]);
    assert input == [input[0]] + input[1..];
  }

  /** A marker state accepts a run only if the rest of its literal follows. */
  lemma {:induction false} MarkerPrefix(cfg: Config, s: State, v: Closure, input: seq<Code>)
    requires IsMarkerState(s) && CursorOf(s, v) <= |MarkerOf(cfg, s)|
    requires RunFrom(cfg, s, v, input).verdict.Ok?
    ensures Lift(MarkerOf(cfg, s)[CursorOf(s, v)..]) <= input
    decreases |MarkerOf(cfg, s)| - CursorOf(s, v)
  {
    var m, k := MarkerOf(cfg, s), CursorOf(s, v);
    if k < |m| {
      MarkerOkHead(cfg, s, v, input);
      var v' := WithCursor(s, v, k + 1);
      assert RunFrom(cfg, s, v', input[1..]).verdict.Ok? by {
        MarkerConsume(cfg, s, v, input);
      }
      CursorFacts(s, v, k + 1, 0);
      MarkerPrefix(cfg, s, v', input[1..]);
      LiteralPrefixCons(m, k, input);
    }
  }

  lemma HasContentCons(s: seq<Code>)
    requires |s| > 0
    ensures HasContent(s) <==> Visible(s[0]) || HasContent(s[1..])
  {
    if HasContent(s[1..]) {
      var i :| 0 <= i < |s[1..]| && Visible(s[1..][i]);
      assert Visible(s[i + 1]);
    }
    if HasContent(s) && !Visible(s[0]) {
      var i :| 0 <= i < |s| && Visible(s[i]);
      assert Visible(s[1..][i - 1]);
    }
  }

  /** The first code of a non-empty run of codes, and the rest. */
  lemma CodesCons(t: seq<Code>, rest: seq<Code>)
    requires |t| > 0
    ensures |t + rest| > 0 && (t + rest)[0] == t[0] && (t + rest)[1..] == t[1..] + rest
    ensures ConsumeAll(t) == [Consume(t[0])] + ConsumeAll(t[1..])
  {
    assert (t + rest)[1..] == t[1..] + rest;
  }

  /** Nothing is consumed from an empty run of codes. */
  lemma CodesNone(t: seq<Code>, rest: seq<Code>, r: Result)
    requires t == []
    ensures t + rest == rest && Prepend(ConsumeAll(t), r) == r && !HasContent(t)
  {
    assert [] + r.events == r.events;
  }

  /** The target state consumes target codes, recording in `data` whether any of them was content. */
  lemma {:induction false} TargetRun(cfg: Config, v: Closure, t: seq<Code>, rest: seq<Code>)
    requires ValidConfig(cfg) && v.aliasCursor == 0 && v.endMarkerCursor == 0
    requires forall i :: 0 <= i < |t| ==> TargetCode(cfg, t[i])
    ensures RunFrom(cfg, InTarget, v, t + rest) ==
            Prepend(ConsumeAll(t), RunFrom(cfg, InTarget, v.(data := v.data || HasContent(t)), rest))
    decreases |t|
  {
    if t == [] {
      CodesNone(t, rest, RunFrom(cfg, InTarget, v, rest));
      assert v.(data := v.data || HasContent(t)) == v;
    } else {
      var c := t[0];
      var v' := if !IsLineEndingOrSpace(c) then v.(data := true) else v;
      var v'' := v.(data := v.data || HasContent(t));
      CodesCons(t, rest);
      assert TargetCode(cfg, c);
      assert RunFrom(cfg, InTarget, v, t + rest) == Prepend([Consume(c)], RunFrom(cfg, InTarget, v', t[1..] + rest)) by {
        assert Dispatch(cfg, InTarget, v, c) == Transition([Consume(c)], Next(InTarget), v');
        ConsumeRun(cfg, InTarget, v, t + rest, InTarget, v');
      }
      assert RunFrom(cfg, InTarget, v', t[1..] + rest) == Prepend(ConsumeAll(t[1..]), RunFrom(cfg, InTarget, v'', rest)) by {
        TargetRun(cfg, v', t[1..], rest);
        HasContentCons(t);
        assert v'.(data := v'.data || HasContent(t[1..])) == v'';
      }
      PrependTwice([Consume(c)], ConsumeAll(t[1..]), RunFrom(cfg, InTarget, v'', rest));
    }
  }

  /** The alias state consumes alias codes; its `alias` flag plays no part in what happens next. */
  lemma {:induction false} AliasRun(cfg: Config, v: Closure, a: seq<Code>, rest: seq<Code>)
    requires ValidConfig(cfg) && v.endMarkerCursor == 0
    requires ValidAlias(cfg, a)
    ensures RunFrom(cfg, InAlias, v, a + rest) ==
            Prepend(ConsumeAll(a), RunFrom(cfg, InAlias, v.(alias := v.alias || HasContent(a)), rest))
    decreases |a|
  {
    if a == [] {
      CodesNone(a, rest, RunFrom(cfg, InAlias, v, rest));
      assert v.(alias := v.alias || HasContent(a)) == v;
    } else {
      var c := a[0];
      var v' := if !IsLineEndingOrSpace(c) then v.(alias := true) else v;
      var v'' := v.(alias := v.alias || HasContent(a));
      CodesCons(a, rest);
      assert AliasCode(cfg, c);
      assert RunFrom(cfg, InAlias, v, a + rest) == Prepend([Consume(c)], RunFrom(cfg, InAlias, v', a[1..] + rest)) by {
        assert Dispatch(cfg, InAlias, v, c) == Transition([Consume(c)], Next(InAlias), v');
        ConsumeRun(cfg, InAlias, v, a + rest, InAlias, v');
      }
      assert RunFrom(cfg, InAlias, v', a[1..] + rest) == Prepend(ConsumeAll(a[1..]), RunFrom(cfg, InAlias, v'', rest)) by {
        assert ValidAlias(cfg, a[1..]) by {
          forall i | 0 <= i < |a[1..]| ensures AliasCode(cfg, a[1..][i]) {
            assert a[1..][i] == a[i + 1];
          }
        }
        AliasRun(cfg, v', a[1..], rest);
        HasContentCons(a);
        assert v'.(alias := v'.alias || HasContent(a[1..])) == v'';
      }
      PrependTwice([Consume(c)], ConsumeAll(a[1..]), RunFrom(cfg, InAlias, v'', rest));
    }
  }

  /**
   * An accepted run leaves the target state only at the first character of
   * the alias or end marker, after target codes of which one was content.
   */
  lemma {:induction false} TargetPrefix(cfg: Config, v: Closure, input: seq<Code>) returns (n: nat)
    requires ValidConfig(cfg) && v.aliasCursor == 0 && v.endMarkerCursor == 0
    requires RunFrom(cfg, InTarget, v, input).verdict.Ok?
    ensures n < |input| && forall i :: 0 <= i < n ==> TargetCode(cfg, input[i])
    ensures input[n] == Char(cfg.aliasMarker[0]) || input[n] == Char(cfg.endMarker[0])
    ensures v.data || HasContent(input[..n])
    decreases |input|
  {
    RunFromStep(cfg, InTarget, v, input);
    var c := input[0];
    if Matches(c, cfg.aliasMarker, 0) || Matches(c, cfg.endMarker, 0) {
      n := 0;
    } else {
      var v' := if !IsLineEndingOrSpace(c) then v.(data := true) else v;
      assert Dispatch(cfg, InTarget, v, c) == Transition([Consume(c)], Next(InTarget), v');
      var n' := TargetPrefix(cfg, v', input[1..]);
      n := n' + 1;
      assert input[..n][1..] == input[1..][..n'];
      HasContentCons(input[..n]);
    }
  }

  /** An accepted run leaves the alias state only at the first character of the end marker. */
  lemma {:induction false} AliasPrefix(cfg: Config, v: Closure, input: seq<Code>) returns (n: nat)
    requires ValidConfig(cfg) && v.endMarkerCursor == 0
    requires RunFrom(cfg, InAlias, v, input).verdict.Ok?
    ensures n < |input| && ValidAlias(cfg, input[..n])
    ensures input[n] == Char(cfg.endMarker[0])
    decreases |input|
  {
    RunFromStep(cfg, InAlias, v, input);
    var c := input[0];
    if Matches(c, cfg.endMarker, 0) {
      n := 0;
    } else {
      var v' := if !IsLineEndingOrSpace(c) then v.(alias := true) else v;
      assert Dispatch(cfg, InAlias, v, c) == Transition([Consume(c)], Next(InAlias), v');
      var n' := AliasPrefix(cfg, v', input[1..]);
      n := n' + 1;
      forall i | 0 <= i < n ensures AliasCode(cfg, input[..n][i]) {
        if i > 0 {
          assert input[..n][i] == input[1..][..n'][i - 1];
        }
      }
    }
  }
}
