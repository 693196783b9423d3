/**
 * The wiki-link scanner as a pure state machine.
 *
 * Both `tokenize` closures of src/index.js (the one inside `wikiLink` and
 * the one inside `wikiImgLink`) are the same machine over different
 * constants; here that machine is written once, parametrised by a `Config`.
 * Each state function of the closure becomes a function from the closure's
 * variables and the current code to a `Transition`: the effects emitted, the
 * reply (the next state, `ok(code)` or `nok(code)`) and the new values of the
 * variables.  A state function that hands the same code on to another state
 * function (`return consumeData(code)`) calls that function here.
 */
module Scanner {
  import opened CharCodes

  /** A UTF-16 code unit, which is what `String.prototype.charCodeAt` returns. */
  type CodeUnit = x: int | 0 <= x < 0x1_0000

  /** The constants a scanner is built from. */
  datatype Config = Config(
    startMarker: seq<CodeUnit>,
    endMarker: seq<CodeUnit>,
    aliasMarker: seq<CodeUnit>,
    tagPrefix: string)

  /** Every marker literal has at least one character. */
  predicate ValidConfig(cfg: Config)
  {
    |cfg.startMarker| > 0 && |cfg.endMarker| > 0 && |cfg.aliasMarker| > 0
  }

  /** The named spans the scanner opens and closes. */
  datatype Span = Outer | Marker | Data | Target | AliasMarker | Alias

  /** The host-facing tag name: the prefix (`wikiLink`, `wikiImgLink`) and a per-span suffix. */
  function TagName(prefix: string, span: Span): string
  {
    prefix + match span
      case Outer => ""
      case Marker => "Marker"
      case Data => "Data"
      case Target => "Target"
      case AliasMarker => "AliasMarker"
      case Alias => "Alias"
  }

  /** The effects a run asks of the host: `effects.enter`, `effects.exit`, `effects.consume`. */
  datatype Event = Enter(tag: string) | Exit(tag: string) | Consume(code: Code)

  function Open(cfg: Config, span: Span): Event { Enter(TagName(cfg.tagPrefix, span)) }
  function Close(cfg: Config, span: Span): Event { Exit(TagName(cfg.tagPrefix, span)) }

  function CodesOf(e: Event): seq<Code>
  {
    if e.Consume? then [e.code] else []
  }

  /** The codes that a sequence of effects consumes, in order. */
  function Consumed(events: seq<Event>): seq<Code>
  {
    if events == [] then [] else CodesOf(events[0]) + Consumed(events[1..])
  }

  lemma {:induction false} ConsumedAppend(a: seq<Event>, b: seq<Event>)
    ensures Consumed(a + b) == Consumed(a) + Consumed(b)
  {
    if a == [] {
      assert a + b == b;
    } else {
      assert (a + b)[0] == a[0];
      assert (a + b)[1..] == a[1..] + b;
      ConsumedAppend(a[1..], b);
      assert Consumed(a + b) == CodesOf(a[0]) + Consumed(a[1..] + b);
    }
  }

  /**
   * The state functions a run can be suspended in: the ones a state function
   * returns.  `start` is the initial one; `consumeData` is only ever entered
   * by delegation from `consumeStart`, so it is not a state of its own.
   */
  datatype State = Starting | InStartMarker | InTarget | InAliasMarker | InAlias | InEndMarker

  /** The closure variables of one run (src/index.js:172-177). */
  datatype Closure = Closure(
    startMarkerCursor: nat,
    aliasCursor: nat,
    endMarkerCursor: nat,
    data: bool,
    alias: bool)

  /** Fresh closure: cursors at 0, `data` and `alias` undefined (falsy). */
  const Initial := Closure(0, 0, 0, false, false)

  /** What a state function returns: the next state function, `ok(code)` or `nok(code)`. */
  datatype Reply = Next(state: State) | Accept(code: Code) | Reject(code: Code)

  datatype Transition = Transition(events: seq<Event>, reply: Reply, vars: Closure)

  /** The effects `pre` happen before those of the state function delegated to. */
  function Emit(pre: seq<Event>, t: Transition): Transition
  {
    Transition(pre + t.events, t.reply, t.vars)
  }

  function Refuse(v: Closure, code: Code): Transition
  {
    Transition([], Reject(code), v)
  }

  /**
   * `code === marker.charCodeAt(cursor)`: a cursor past the end yields NaN,
   * which equals nothing, and `null` equals no number.
   */
  predicate Matches(code: Code, marker: seq<CodeUnit>, cursor: nat)
  {
    code.Char? && cursor < |marker| && code.value == marker[cursor]
  }

  function StartStep(cfg: Config, v: Closure, code: Code): Transition
  {
    if !Matches(code, cfg.startMarker, v.startMarkerCursor) then Refuse(v, code)
    else Emit([Open(cfg, Outer), Open(cfg, Marker)], ConsumeStartStep(cfg, v, code))
  }

  function ConsumeStartStep(cfg: Config, v: Closure, code: Code): Transition
  {
    if v.startMarkerCursor == |cfg.startMarker| then
      Emit([Close(cfg, Marker)], ConsumeDataStep(cfg, v, code))
    else if !Matches(code, cfg.startMarker, v.startMarkerCursor) then Refuse(v, code)
    else Transition([Consume(code)], Next(InStartMarker),
                    v.(startMarkerCursor := v.startMarkerCursor + 1))
  }

  function ConsumeDataStep(cfg: Config, v: Closure, code: Code): Transition
  {
    if IsLineEnding(code) || code.Eof? then Refuse(v, code)
    else Emit([Open(cfg, Data), Open(cfg, Target)], ConsumeTargetStep(cfg, v, code))
  }

  function ConsumeTargetStep(cfg: Config, v: Closure, code: Code): Transition
  {
    if Matches(code, cfg.aliasMarker, v.aliasCursor) then
      if !v.data then Refuse(v, code)
      else Emit([Close(cfg, Target), Open(cfg, AliasMarker)], ConsumeAliasMarkerStep(cfg, v, code))
    else if Matches(code, cfg.endMarker, v.endMarkerCursor) then
      if !v.data then Refuse(v, code)
      else Emit([Close(cfg, Target), Close(cfg, Data), Open(cfg, Marker)], ConsumeEndStep(cfg, v, code))
    else if IsLineEnding(code) || code.Eof? then Refuse(v, code)
    else Transition([Consume(code)], Next(InTarget),
                    if !IsLineEndingOrSpace(code) then v.(data := true) else v)
  }

  function ConsumeAliasMarkerStep(cfg: Config, v: Closure, code: Code): Transition
  {
    if v.aliasCursor == |cfg.aliasMarker| then
      Emit([Close(cfg, AliasMarker), Open(cfg, Alias)], ConsumeAliasStep(cfg, v, code))
    else if !Matches(code, cfg.aliasMarker, v.aliasCursor) then Refuse(v, code)
    else Transition([Consume(code)], Next(InAliasMarker), v.(aliasCursor := v.aliasCursor + 1))
  }

  /** Reaching the end marker closes the alias whether or not `alias` was set: an empty alias is allowed. */
  function ConsumeAliasStep(cfg: Config, v: Closure, code: Code): Transition
  {
    if Matches(code, cfg.endMarker, v.endMarkerCursor) then
      Emit([Close(cfg, Alias), Close(cfg, Data), Open(cfg, Marker)], ConsumeEndStep(cfg, v, code))
    else if IsLineEnding(code) || code.Eof? then Refuse(v, code)
    else Transition([Consume(code)], Next(InAlias),
                    if !IsLineEndingOrSpace(code) then v.(alias := true) else v)
  }

  function ConsumeEndStep(cfg: Config, v: Closure, code: Code): Transition
  {
    if v.endMarkerCursor == |cfg.endMarker| then
      Transition([Close(cfg, Marker), Close(cfg, Outer)], Accept(code), v)
    else if !Matches(code, cfg.endMarker, v.endMarkerCursor) then Refuse(v, code)
    else Transition([Consume(code)], Next(InEndMarker), v.(endMarkerCursor := v.endMarkerCursor + 1))
  }

  /** Feed one code to the state function the run is suspended in. */
  function Dispatch(cfg: Config, s: State, v: Closure, code: Code): Transition
  {
    match s
    case Starting => StartStep(cfg, v, code)
    case InStartMarker => ConsumeStartStep(cfg, v, code)
    case InTarget => ConsumeTargetStep(cfg, v, code)
    case InAliasMarker => ConsumeAliasMarkerStep(cfg, v, code)
    case InAlias => ConsumeAliasStep(cfg, v, code)
    case InEndMarker => ConsumeEndStep(cfg, v, code)
  }

  /**
   * Each fed code goes exactly one way: it is consumed once (and it is a real
   * character, never a line ending) and a next state is returned, or it is
   * handed unconsumed to `ok`/`nok` and the closure is left as it was.
   */
  predicate OneWay(t: Transition, v: Closure, code: Code)
  {
    (t.reply.Next? ==> Consumed(t.events) == [code] && code.Char? && !IsLineEnding(code)) &&
    (!t.reply.Next? ==> Consumed(t.events) == [] && t.reply.code == code && t.vars == v)
  }

  lemma EmitOneWay(pre: seq<Event>, t: Transition, v: Closure, code: Code)
    requires forall i :: 0 <= i < |pre| ==> !pre[i].Consume?
    requires OneWay(t, v, code)
    ensures OneWay(Emit(pre, t), v, code)
  {
    NoConsumeIn(pre);
    ConsumedAppend(pre, t.events);
  }

  lemma {:induction false} NoConsumeIn(pre: seq<Event>)
    requires forall i :: 0 <= i < |pre| ==> !pre[i].Consume?
    ensures Consumed(pre) == []
  {
    if pre != [] {
      NoConsumeIn(pre[1..]);
    }
  }

  lemma ConsumeOneWay(code: Code, s: State, v: Closure)
    requires code.Char? && !IsLineEnding(code)
    ensures OneWay(Transition([Consume(code)], Next(s), v), v, code)
  {
    assert Consumed([Consume(code)]) == [code] + Consumed([]);
  }

  lemma EndOneWay(cfg: Config, v: Closure, code: Code)
    ensures OneWay(ConsumeEndStep(cfg, v, code), v, code)
  {
    var t := ConsumeEndStep(cfg, v, code);
    if v.endMarkerCursor == |cfg.endMarker| {
      NoConsumeIn(t.events);
    } else if Matches(code, cfg.endMarker, v.endMarkerCursor) {
      ConsumeOneWay(code, InEndMarker, t.vars);
    }
  }

  lemma AliasOneWay(cfg: Config, v: Closure, code: Code)
    ensures OneWay(ConsumeAliasStep(cfg, v, code), v, code)
  {
    if Matches(code, cfg.endMarker, v.endMarkerCursor) {
      EndOneWay(cfg, v, code);
      EmitOneWay([Close(cfg, Alias), Close(cfg, Data), Open(cfg, Marker)], ConsumeEndStep(cfg, v, code), v, code);
    } else if !(IsLineEnding(code) || code.Eof?) {
      ConsumeOneWay(code, InAlias, ConsumeAliasStep(cfg, v, code).vars);
    }
  }

  lemma AliasMarkerOneWay(cfg: Config, v: Closure, code: Code)
    ensures OneWay(ConsumeAliasMarkerStep(cfg, v, code), v, code)
  {
    if v.aliasCursor == |cfg.aliasMarker| {
      AliasOneWay(cfg, v, code);
      EmitOneWay([Close(cfg, AliasMarker), Open(cfg, Alias)], ConsumeAliasStep(cfg, v, code), v, code);
    } else if Matches(code, cfg.aliasMarker, v.aliasCursor) {
      ConsumeOneWay(code, InAliasMarker, v.(aliasCursor := v.aliasCursor + 1));
    }
  }

  lemma TargetOneWay(cfg: Config, v: Closure, code: Code)
    ensures OneWay(ConsumeTargetStep(cfg, v, code), v, code)
  {
    if Matches(code, cfg.aliasMarker, v.aliasCursor) {
      if v.data {
        AliasMarkerOneWay(cfg, v, code);
        EmitOneWay([Close(cfg, Target), Open(cfg, AliasMarker)], ConsumeAliasMarkerStep(cfg, v, code), v, code);
      }
    } else if Matches(code, cfg.endMarker, v.endMarkerCursor) {
      if v.data {
        EndOneWay(cfg, v, code);
        EmitOneWay([Close(cfg, Target), Close(cfg, Data), Open(cfg, Marker)], ConsumeEndStep(cfg, v, code), v, code);
      }
    } else if !(IsLineEnding(code) || code.Eof?) {
      ConsumeOneWay(code, InTarget, ConsumeTargetStep(cfg, v, code).vars);
    }
  }

  lemma StartMarkerOneWay(cfg: Config, v: Closure, code: Code)
    ensures OneWay(ConsumeStartStep(cfg, v, code), v, code)
  {
    if v.startMarkerCursor == |cfg.startMarker| {
      if !(IsLineEnding(code) || code.Eof?) {
        TargetOneWay(cfg, v, code);
        EmitOneWay([Open(cfg, Data), Open(cfg, Target)], ConsumeTargetStep(cfg, v, code), v, code);
      }
      EmitOneWay([Close(cfg, Marker)], ConsumeDataStep(cfg, v, code), v, code);
    } else if Matches(code, cfg.startMarker, v.startMarkerCursor) {
      ConsumeOneWay(code, InStartMarker, v.(startMarkerCursor := v.startMarkerCursor + 1));
    }
  }

  /**
   * Whatever state the run is in, the code fed goes exactly one way, and in
   * the initial state a code other than the first start-marker character is
   * refused with no effect at all.
   */
  lemma EachCodeOneWay(cfg: Config, s: State, v: Closure, code: Code)
    ensures OneWay(Dispatch(cfg, s, v, code), v, code)
    ensures s == Starting && !Matches(code, cfg.startMarker, v.startMarkerCursor) ==>
              Dispatch(cfg, s, v, code) == Transition([], Reject(code), v)
  {
    match s
    case Starting =>
      if Matches(code, cfg.startMarker, v.startMarkerCursor) {
        StartMarkerOneWay(cfg, v, code);
        EmitOneWay([Open(cfg, Outer), Open(cfg, Marker)], ConsumeStartStep(cfg, v, code), v, code);
      }
    case InStartMarker => StartMarkerOneWay(cfg, v, code);
    case InTarget => TargetOneWay(cfg, v, code);
    case InAliasMarker => AliasMarkerOneWay(cfg, v, code);
    case InAlias => AliasOneWay(cfg, v, code);
    case InEndMarker => EndOneWay(cfg, v, code);
  }

  /** How a run over a finite input ends: `ok`, `nok`, or still waiting for codes. */
  datatype Verdict = Ok(code: Code) | Nok(code: Code) | NeedMore(state: State, vars: Closure)

  datatype Result = Result(events: seq<Event>, verdict: Verdict)

  function Prepend(pre: seq<Event>, r: Result): Result
  {
    Result(pre + r.events, r.verdict)
  }

  /**
   * Feed `input` to the run suspended in state `s` with closure `v`, code by
   * code, until a state function answers `ok` or `nok`.
   */
  function RunFrom(cfg: Config, s: State, v: Closure, input: seq<Code>): Result
    decreases |input|
  {
    if input == [] then Result([], NeedMore(s, v))
    else
      var t := Dispatch(cfg, s, v, input[0]);
      match t.reply
      case Next(s') => Prepend(t.events, RunFrom(cfg, s', t.vars, input[1..]))
      case Accept(c) => Result(t.events, Ok(c))
      case Reject(c) => Result(t.events, Nok(c))
  }

  /**
   * What a run consumes is a prefix of its input, each code once and in
   * order; a run still waiting has consumed all of it, and on `ok`/`nok`
   * the verdict carries the code right after that prefix, unconsumed.
   */
  predicate ConsumesPrefix(r: Result, input: seq<Code>)
  {
    var n := |Consumed(r.events)|;
    n <= |input| && Consumed(r.events) == input[..n] &&
    (r.verdict.NeedMore? ==> n == |input|) &&
    (!r.verdict.NeedMore? ==> n < |input| && r.verdict.code == input[n])
  }

  /** Consuming the first code and then a prefix of the rest consumes a prefix of the whole. */
  lemma ConsumesPrefixCons(pre: seq<Event>, r: Result, input: seq<Code>)
    requires |input| > 0 && Consumed(pre) == [input[0]]
    requires ConsumesPrefix(r, input[1..])
    ensures ConsumesPrefix(Prepend(pre, r), input)
  {
    ConsumedAppend(pre, r.events);
    var n := |Consumed(r.events)|;
    assert [input[0]] + input[1..][..n] == input[..n + 1];
    assert n < |input| - 1 ==> input[1..][n] == input[n + 1];
  }

  lemma {:induction false} RunConsumesPrefix(cfg: Config, s: State, v: Closure, input: seq<Code>)
    ensures ConsumesPrefix(RunFrom(cfg, s, v, input), input)
    decreases |input|
  {
    if input != [] {
      var t := Dispatch(cfg, s, v, input[0]);
      EachCodeOneWay(cfg, s, v, input[0]);
      RunFromStep(cfg, s, v, input);
      if t.reply.Next? {
        RunConsumesPrefix(cfg, t.reply.state, t.vars, input[1..]);
        ConsumesPrefixCons(t.events, RunFrom(cfg, t.reply.state, t.vars, input[1..]), input);
      }
    }
  }

  lemma PrependTwice(a: seq<Event>, b: seq<Event>, r: Result)
    ensures Prepend(a, Prepend(b, r)) == Prepend(a + b, r)
  {
    assert a + (b + r.events) == (a + b) + r.events;
  }

  /** One code of a run: the step taken on the first code, then the rest of the run. */
  lemma RunFromStep(cfg: Config, s: State, v: Closure, input: seq<Code>)
    requires |input| > 0
    ensures var t := Dispatch(cfg, s, v, input[0]);
            RunFrom(cfg, s, v, input) ==
              match t.reply
              case Next(s') => Prepend(t.events, RunFrom(cfg, s', t.vars, input[1..]))
              case Accept(c) => Result(t.events, Ok(c))
              case Reject(c) => Result(t.events, Nok(c))
  {
  }

  /** A fresh run, as the host starts one at a candidate position. */
  function Scan(cfg: Config, input: seq<Code>): Result
  {
    RunFrom(cfg, Starting, Initial, input)
  }
}
