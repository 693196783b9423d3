/**
 * The `tokenize` closure as an object: its variables are fields, each of its
 * state functions is a method that updates them and records the effects it
 * asks of the host, and `Tokenize` is the host's loop that feeds the codes.
 * Every method is proved to do what the corresponding step function of
 * `Scanner` says, and the loop to compute `Scanner.Scan`.
 */
module Tokenizer {
  import opened CharCodes
  import opened Scanner

  class WikiTokenizer {
    const cfg: Config
    /** The state function the run is suspended in. */
    var state: State
    var startMarkerCursor: nat
    var aliasCursor: nat
    var endMarkerCursor: nat
    var data: bool
    var alias: bool
    /** The `effects.enter`, `effects.exit` and `effects.consume` calls made so far. */
    var events: seq<Event>

    function Vars(): Closure
      reads this
    {
      Closure(startMarkerCursor, aliasCursor, endMarkerCursor, data, alias)
    }

    /** The method just run performed `t`: it answered `t.reply`, emitted `t.events` and left the closure as `t.vars`. */
    twostate predicate Did(t: Transition, r: Reply)
      reads this
    {
      r == t.reply && events == old(events) + t.events && Vars() == t.vars && state == old(state)
    }

    constructor (cfg: Config)
      ensures this.cfg == cfg && state == Starting && Vars() == Initial && events == []
    {
      this.cfg := cfg;
      state := Starting;
      startMarkerCursor, aliasCursor, endMarkerCursor := 0, 0, 0;
      data, alias := false, false;
      events := [];
    }

    method Start(code: Code) returns (r: Reply)
      modifies this
      ensures Did(StartStep(cfg, old(Vars()), code), r)
    {
      if !Matches(code, cfg.startMarker, startMarkerCursor) {
        return Reject(code);
      }
      events := events + [Open(cfg, Outer)];
      events := events + [Open(cfg, Marker)];
      r := ConsumeStart(code);
    }

    method ConsumeStart(code: Code) returns (r: Reply)
      modifies this
      ensures Did(ConsumeStartStep(cfg, old(Vars()), code), r)
    {
      if startMarkerCursor == |cfg.startMarker| {
        events := events + [Close(cfg, Marker)];
        r := ConsumeData(code);
        return;
      }
      if !Matches(code, cfg.startMarker, startMarkerCursor) {
        return Reject(code);
      }
      events := events + [Consume(code)];
      startMarkerCursor := startMarkerCursor + 1;
      return Next(InStartMarker);
    }

    method ConsumeData(code: Code) returns (r: Reply)
      modifies this
      ensures Did(ConsumeDataStep(cfg, old(Vars()), code), r)
    {
      if IsLineEnding(code) || code.Eof? {
        return Reject(code);
      }
      events := events + [Open(cfg, Data)];
      events := events + [Open(cfg, Target)];
      r := ConsumeTarget(code);
    }

    method ConsumeTarget(code: Code) returns (r: Reply)
      modifies this
      ensures Did(ConsumeTargetStep(cfg, old(Vars()), code), r)
    {
      if Matches(code, cfg.aliasMarker, aliasCursor) {
        if !data {
          return Reject(code);
        }
        events := events + [Close(cfg, Target)];
        events := events + [Open(cfg, AliasMarker)];
        r := ConsumeAliasMarker(code);
        return;
      }
      if Matches(code, cfg.endMarker, endMarkerCursor) {
        if !data {
          return Reject(code);
        }
        events := events + [Close(cfg, Target)];
        events := events + [Close(cfg, Data)];
        events := events + [Open(cfg, Marker)];
        r := ConsumeEnd(code);
        return;
      }
      if IsLineEnding(code) || code.Eof? {
        return Reject(code);
      }
      if !IsLineEndingOrSpace(code) {
        data := true;
      }
      events := events + [Consume(code)];
      return Next(InTarget);
    }

    method ConsumeAliasMarker(code: Code) returns (r: Reply)
      modifies this
      ensures Did(ConsumeAliasMarkerStep(cfg, old(Vars()), code), r)
    {
      if aliasCursor == |cfg.aliasMarker| {
        events := events + [Close(cfg, AliasMarker)];
        events := events + [Open(cfg, Alias)];
        r := ConsumeAlias(code);
        return;
      }
      if !Matches(code, cfg.aliasMarker, aliasCursor) {
        return Reject(code);
      }
      events := events + [Consume(code)];
      aliasCursor := aliasCursor + 1;
      return Next(InAliasMarker);
    }

    method ConsumeAlias(code: Code) returns (r: Reply)
      modifies this
      ensures Did(ConsumeAliasStep(cfg, old(Vars()), code), r)
    {
      if Matches(code, cfg.endMarker, endMarkerCursor) {
        events := events + [Close(cfg, Alias)];
        events := events + [Close(cfg, Data)];
        events := events + [Open(cfg, Marker)];
        r := ConsumeEnd(code);
        return;
      }
      if IsLineEnding(code) || code.Eof? {
        return Reject(code);
      }
      if !IsLineEndingOrSpace(code) {
        alias := true;
      }
      events := events + [Consume(code)];
      return Next(InAlias);
    }

    method ConsumeEnd(code: Code) returns (r: Reply)
      modifies this
      ensures Did(ConsumeEndStep(cfg, old(Vars()), code), r)
    {
      if endMarkerCursor == |cfg.endMarker| {
        events := events + [Close(cfg, Marker)];
        events := events + [Close(cfg, Outer)];
        return Accept(code);
      }
      if !Matches(code, cfg.endMarker, endMarkerCursor) {
        return Reject(code);
      }
      events := events + [Consume(code)];
      endMarkerCursor := endMarkerCursor + 1;
      return Next(InEndMarker);
    }

    /** Feed one code to the current state function and remember the state function it returns. */
    method Step(code: Code) returns (r: Reply)
      modifies this
      ensures var t := Dispatch(cfg, old(state), old(Vars()), code);
              r == t.reply && events == old(events) + t.events && Vars() == t.vars
      ensures state == if r.Next? then r.state else old(state)
    {
      match state {
        case Starting => r := Start(code);
        case InStartMarker => r := ConsumeStart(code);
        case InTarget => r := ConsumeTarget(code);
        case InAliasMarker => r := ConsumeAliasMarker(code);
        case InAlias => r := ConsumeAlias(code);
        case InEndMarker => r := ConsumeEnd(code);
      }
      if r.Next? {
        state := r.state;
      }
    }
  }

  /**
   * The host's side: start a fresh run and feed it the codes in order until
   * it answers `ok` or `nok`, or the codes run out.
   */
  method Tokenize(cfg: Config, input: seq<Code>) returns (result: Result)
    ensures result == Scan(cfg, input)
  {
    var tok := new WikiTokenizer(cfg);
    var i := 0;
    assert input[i..] == input;
    while i < |input|
      invariant 0 <= i <= |input|
      invariant tok.cfg == cfg
      invariant Scan(cfg, input) == Prepend(tok.events, RunFrom(cfg, tok.state, tok.Vars(), input[i..]))
      decreases |input| - i
    {
      ghost var pre, s, v := tok.events, tok.state, tok.Vars();
      ghost var t := Dispatch(cfg, s, v, input[i]);
      assert input[i..][0] == input[i] && input[i..][1..] == input[i + 1..];
      RunFromStep(cfg, s, v, input[i..]);
      assert Scan(cfg, input) == Prepend(pre, RunFrom(cfg, s, v, input[i..]));
      var r := tok.Step(input[i]);
      assert r == t.reply && tok.events == pre + t.events;
      match r {
        case Accept(c) => return Result(tok.events, Ok(c));
        case Reject(c) => return Result(tok.events, Nok(c));
        case Next(s') =>
          assert RunFrom(cfg, s, v, input[i..]) == Prepend(t.events, RunFrom(cfg, s', t.vars, input[i + 1..]));
          PrependTwice(pre, t.events, RunFrom(cfg, s', t.vars, input[i + 1..]));
          assert tok.state == s' && tok.Vars() == t.vars;
      }
      i := i + 1;
    }
    assert input[i..] == [];
    return Result(tok.events, NeedMore(tok.state, tok.Vars()));
  }
}
