/**
 * The effects of an accepted run, read as a tree of spans: they nest as
 * outer ⊃ {marker, data ⊃ {target, [aliasMarker, alias]}, marker}, every
 * exit closes the innermost open span, and the codes consumed are exactly
 * the link's text.
 */
module Nesting {
  import opened Wrappers
  import opened CharCodes
  import opened Scanner
  import opened Grammar
  import opened Theorems

  /** A span around `body`. */
  function Wrap(cfg: Config, span: Span, body: seq<Event>): seq<Event>
  {
    [Open(cfg, span)] + body + [Close(cfg, span)]
  }

  /** The spans inside the data span: the target, then the alias marker and the alias if there is an alias. */
  function DataBody(cfg: Config, t: seq<Code>, alias: Option<seq<Code>>): seq<Event>
  {
    Wrap(cfg, Target, ConsumeAll(t)) + AliasSpans(cfg, alias)
  }

  function LinkTree(cfg: Config, t: seq<Code>, alias: Option<seq<Code>>): seq<Event>
  {
    Wrap(cfg, Outer,
      Wrap(cfg, Marker, ConsumeAll(Lift(cfg.startMarker))) +
      Wrap(cfg, Data, DataBody(cfg, t, alias)) +
      Wrap(cfg, Marker, ConsumeAll(Lift(cfg.endMarker))))
  }

  /** The spans that follow the target span inside the data span. */
  function AliasSpans(cfg: Config, alias: Option<seq<Code>>): seq<Event>
  {
    match alias
    case Some(a) => Wrap(cfg, AliasMarker, ConsumeAll(Lift(cfg.aliasMarker))) + Wrap(cfg, Alias, ConsumeAll(a))
    case None => []
  }

  lemma OpeningShape(cfg: Config)
    ensures Opening(cfg) == [Open(cfg, Outer)] + Wrap(cfg, Marker, ConsumeAll(Lift(cfg.startMarker))) + [Open(cfg, Data), Open(cfg, Target)]
  {
  }

  lemma ClosingShape(cfg: Config, alias: Option<seq<Code>>)
    ensures Closing(cfg, alias) == [Close(cfg, Target)] + AliasSpans(cfg, alias) + [Close(cfg, Data)] + Ending(cfg)
  {
    match alias
    case Some(a) =>
      Regroup7([Close(cfg, Target), Open(cfg, AliasMarker)], ConsumeAll(Lift(cfg.aliasMarker)),
        [Close(cfg, AliasMarker), Open(cfg, Alias)], ConsumeAll(a), [Close(cfg, Alias), Close(cfg, Data)], Ending(cfg));
    case None =>
  }

  /** Regrouping of the closing half; stated over plain sequences so that nothing else is unfolded. */
  lemma Regroup7<T>(a: seq<T>, b: seq<T>, c: seq<T>, d: seq<T>, e: seq<T>, f: seq<T>)
    requires |a| == 2 && |c| == 2 && |e| == 2
    ensures a + b + c + d + e + f == [a[0]] + (([a[1]] + b + [c[0]]) + ([c[1]] + d + [e[0]])) + [e[1]] + f
  {
    assert a == [a[0]] + [a[1]] && c == [c[0]] + [c[1]] && e == [e[0]] + [e[1]];
  }

  /** Regrouping of a whole link; stated over plain sequences so that nothing else is unfolded. */
  lemma RegroupLink<T>(oo: T, od: T, ot: T, ct: T, cd: T, co: T, s: seq<T>, t: seq<T>, tail: seq<T>, e: seq<T>)
    ensures [oo] + s + [od, ot] + t + ([ct] + tail + [cd] + (e + [co])) ==
            [oo] + (s + ([od] + (([ot] + t + [ct]) + tail) + [cd]) + e) + [co]
  {
    assert [od, ot] == [od] + [ot];
  }

  /** The effects of a link are the tree of spans `LinkTree` flattened. */
  lemma ExpectedShape(cfg: Config, t: seq<Code>, alias: Option<seq<Code>>)
    ensures Expected(cfg, t, alias) == LinkTree(cfg, t, alias)
  {
    OpeningShape(cfg);
    ClosingShape(cfg, alias);
    assert DataBody(cfg, t, alias) == Wrap(cfg, Target, ConsumeAll(t)) + AliasSpans(cfg, alias);
    assert Ending(cfg) == Wrap(cfg, Marker, ConsumeAll(Lift(cfg.endMarker))) + [Close(cfg, Outer)];
    RegroupLink(Open(cfg, Outer), Open(cfg, Data), Open(cfg, Target), Close(cfg, Target), Close(cfg, Data), Close(cfg, Outer),
      Wrap(cfg, Marker, ConsumeAll(Lift(cfg.startMarker))), ConsumeAll(t), AliasSpans(cfg, alias),
      Wrap(cfg, Marker, ConsumeAll(Lift(cfg.endMarker))));
  }

  /** Replaying `a + b` is replaying `a` and then, if that succeeded, `b` on the stack `a` left. */
  lemma {:induction false} NestAppend(a: seq<Event>, b: seq<Event>, open: seq<string>)
    ensures Nest(a + b, open) == match Nest(a, open) case None => None case Some(o) => Nest(b, o)
  {
    if a != [] {
      assert (a + b)[0] == a[0] && (a + b)[1..] == a[1..] + b;
      match a[0]
      case Enter(tag) => NestAppend(a[1..], b, open + [tag]);
      case Exit(tag) =>
        if |open| > 0 && open[|open| - 1] == tag {
          NestAppend(a[1..], b, open[..|open| - 1]);
        }
      case Consume(_) =>
        if |open| > 0 {
          NestAppend(a[1..], b, open);
        }
    } else {
      assert a + b == b;
    }
  }

  /** Codes consumed inside some open span leave the stack as it was. */
  lemma {:induction false} NestConsumeAll(x: seq<Code>, open: seq<string>)
    requires |open| > 0
    ensures Nest(ConsumeAll(x), open) == Some(open)
  {
    if x != [] {
      assert ConsumeAll(x)[1..] == ConsumeAll(x[1..]);
      NestConsumeAll(x[1..], open);
    }
  }

  /** Balanced effects one after the other are balanced. */
  lemma NestConcat(a: seq<Event>, b: seq<Event>, open: seq<string>)
    requires Nest(a, open) == Some(open) && Nest(b, open) == Some(open)
    ensures Nest(a + b, open) == Some(open)
  {
    NestAppend(a, b, open);
  }

  /** A span around balanced effects is balanced. */
  lemma NestWrap(cfg: Config, span: Span, body: seq<Event>, open: seq<string>)
    requires Nest(body, open + [TagName(cfg.tagPrefix, span)]) == Some(open + [TagName(cfg.tagPrefix, span)])
    ensures Nest(Wrap(cfg, span, body), open) == Some(open)
  {
    var tag := TagName(cfg.tagPrefix, span);
    NestAppend([Open(cfg, span)] + body, [Close(cfg, span)], open);
    NestAppend([Open(cfg, span)], body, open);
    assert Nest([Open(cfg, span)], open) == Some(open + [tag]);
    assert (open + [tag])[..|open|] == open;
    assert Nest([Close(cfg, span)], open + [tag]) == Some(open);
  }

  /** The effects of every link are well nested: each exit closes the innermost open span, and all spans close. */
  lemma ExpectedWellNested(cfg: Config, t: seq<Code>, alias: Option<seq<Code>>)
    ensures WellNested(Expected(cfg, t, alias))
  {
    var o := [TagName(cfg.tagPrefix, Outer)];
    var od := o + [TagName(cfg.tagPrefix, Data)];
    ExpectedShape(cfg, t, alias);
    NestConsumeAll(Lift(cfg.startMarker), o + [TagName(cfg.tagPrefix, Marker)]);
    NestWrap(cfg, Marker, ConsumeAll(Lift(cfg.startMarker)), o);
    NestConsumeAll(Lift(cfg.endMarker), o + [TagName(cfg.tagPrefix, Marker)]);
    NestWrap(cfg, Marker, ConsumeAll(Lift(cfg.endMarker)), o);
    NestConsumeAll(t, od + [TagName(cfg.tagPrefix, Target)]);
    NestWrap(cfg, Target, ConsumeAll(t), od);
    match alias {
      case Some(a) =>
        NestConsumeAll(Lift(cfg.aliasMarker), od + [TagName(cfg.tagPrefix, AliasMarker)]);
        NestWrap(cfg, AliasMarker, ConsumeAll(Lift(cfg.aliasMarker)), od);
        NestConsumeAll(a, od + [TagName(cfg.tagPrefix, Alias)]);
        NestWrap(cfg, Alias, ConsumeAll(a), od);
        NestConcat(Wrap(cfg, AliasMarker, ConsumeAll(Lift(cfg.aliasMarker))), Wrap(cfg, Alias, ConsumeAll(a)), od);
        NestConcat(Wrap(cfg, Target, ConsumeAll(t)),
                   Wrap(cfg, AliasMarker, ConsumeAll(Lift(cfg.aliasMarker))) + Wrap(cfg, Alias, ConsumeAll(a)), od);
      case None =>
        assert DataBody(cfg, t, alias) == Wrap(cfg, Target, ConsumeAll(t));
    }
    NestWrap(cfg, Data, DataBody(cfg, t, alias), o);
    NestConcat(Wrap(cfg, Marker, ConsumeAll(Lift(cfg.startMarker))), Wrap(cfg, Data, DataBody(cfg, t, alias)), o);
    NestConcat(Wrap(cfg, Marker, ConsumeAll(Lift(cfg.startMarker))) + Wrap(cfg, Data, DataBody(cfg, t, alias)),
               Wrap(cfg, Marker, ConsumeAll(Lift(cfg.endMarker))), o);
    assert [] + [TagName(cfg.tagPrefix, Outer)] == o;
    NestWrap(cfg, Outer,
      Wrap(cfg, Marker, ConsumeAll(Lift(cfg.startMarker))) +
      Wrap(cfg, Data, DataBody(cfg, t, alias)) +
      Wrap(cfg, Marker, ConsumeAll(Lift(cfg.endMarker))), []);
  }

  /** The codes consumed by `ConsumeAll(x)` are `x`. */
  lemma {:induction false} ConsumedAll(x: seq<Code>)
    ensures Consumed(ConsumeAll(x)) == x
  {
    if x != [] {
      assert ConsumeAll(x) == [Consume(x[0])] + ConsumeAll(x[1..]);
      ConsumedAppend([Consume(x[0])], ConsumeAll(x[1..]));
      assert Consumed([Consume(x[0])]) == [x[0]] + Consumed([]);
      ConsumedAll(x[1..]);
    }
  }

  /** A span consumes what its body consumes. */
  lemma ConsumedWrap(cfg: Config, span: Span, body: seq<Event>)
    ensures Consumed(Wrap(cfg, span, body)) == Consumed(body)
  {
    ConsumedAppend([Open(cfg, span)] + body, [Close(cfg, span)]);
    ConsumedAppend([Open(cfg, span)], body);
    NoConsumeIn([Open(cfg, span)]);
    NoConsumeIn([Close(cfg, span)]);
  }

  lemma ConsumedAliasSpans(cfg: Config, alias: Option<seq<Code>>)
    ensures Consumed(AliasSpans(cfg, alias)) == AliasPart(cfg, alias)
  {
    match alias {
      case Some(a) =>
        ConsumedWrap(cfg, AliasMarker, ConsumeAll(Lift(cfg.aliasMarker)));
        ConsumedAll(Lift(cfg.aliasMarker));
        ConsumedWrap(cfg, Alias, ConsumeAll(a));
        ConsumedAll(a);
        ConsumedAppend(Wrap(cfg, AliasMarker, ConsumeAll(Lift(cfg.aliasMarker))), Wrap(cfg, Alias, ConsumeAll(a)));
      case None =>
    }
  }

  lemma ConsumedDataBody(cfg: Config, t: seq<Code>, alias: Option<seq<Code>>)
    ensures Consumed(DataBody(cfg, t, alias)) == t + AliasPart(cfg, alias)
  {
    ConsumedWrap(cfg, Target, ConsumeAll(t));
    ConsumedAll(t);
    ConsumedAliasSpans(cfg, alias);
    ConsumedAppend(Wrap(cfg, Target, ConsumeAll(t)), AliasSpans(cfg, alias));
  }

  lemma ConsumedLinkTree(cfg: Config, t: seq<Code>, alias: Option<seq<Code>>)
    ensures Consumed(LinkTree(cfg, t, alias)) == Lift(cfg.startMarker) + (t + AliasPart(cfg, alias)) + Lift(cfg.endMarker)
  {
    var sm := Wrap(cfg, Marker, ConsumeAll(Lift(cfg.startMarker)));
    var em := Wrap(cfg, Marker, ConsumeAll(Lift(cfg.endMarker)));
    var data := Wrap(cfg, Data, DataBody(cfg, t, alias));
    assert Consumed(LinkTree(cfg, t, alias)) == Consumed(sm) + Consumed(data) + Consumed(em) by {
      ConsumedWrap(cfg, Outer, sm + data + em);
      ConsumedThree(sm, data, em);
    }
    assert Consumed(data) == t + AliasPart(cfg, alias) by {
      ConsumedWrap(cfg, Data, DataBody(cfg, t, alias));
      ConsumedDataBody(cfg, t, alias);
    }
    ConsumedMarker(cfg, cfg.startMarker);
    ConsumedMarker(cfg, cfg.endMarker);
  }

  lemma ConsumedThree(a: seq<Event>, b: seq<Event>, c: seq<Event>)
    ensures Consumed(a + b + c) == Consumed(a) + Consumed(b) + Consumed(c)
  {
    ConsumedAppend(a + b, c);
    ConsumedAppend(a, b);
  }

  lemma ConsumedMarker(cfg: Config, m: seq<CodeUnit>)
    ensures Consumed(Wrap(cfg, Marker, ConsumeAll(Lift(m)))) == Lift(m)
  {
    ConsumedWrap(cfg, Marker, ConsumeAll(Lift(m)));
    ConsumedAll(Lift(m));
  }

  /** The codes a link's effects consume are exactly the link's text. */
  lemma ExpectedConsumesSource(cfg: Config, t: seq<Code>, alias: Option<seq<Code>>)
    ensures Consumed(Expected(cfg, t, alias)) == Source(cfg, t, alias)
  {
    ExpectedShape(cfg, t, alias);
    ConsumedLinkTree(cfg, t, alias);
    Regroup4(Lift(cfg.startMarker), t, AliasPart(cfg, alias), Lift(cfg.endMarker));
  }

  lemma Regroup4<T>(a: seq<T>, b: seq<T>, c: seq<T>, d: seq<T>)
    ensures a + (b + c) + d == a + b + c + d
  {
  }

  /**
   * Everything about an accepted run: its input begins with a link, it
   * emitted exactly that link's effects, which are well nested and consume
   * exactly the link's text, and it accepts the code right after the link.
   */
  lemma AcceptedRun(cfg: Config, input: seq<Code>) returns (t: seq<Code>, alias: Option<seq<Code>>)
    requires ValidConfig(cfg) && Scan(cfg, input).verdict.Ok?
    ensures IsLink(cfg, t, alias) && Source(cfg, t, alias) < input
    ensures Scan(cfg, input) == Result(Expected(cfg, t, alias), Ok(input[|Source(cfg, t, alias)|]))
    ensures WellNested(Scan(cfg, input).events)
    ensures Consumed(Scan(cfg, input).events) == Source(cfg, t, alias)
  {
    var rest;
    t, alias, rest := AcceptedIsLink(cfg, input);
    assert Source(cfg, t, alias) < input;
    AcceptedFrom(cfg, t, alias, input);
    ExpectedWellNested(cfg, t, alias);
    ExpectedConsumesSource(cfg, t, alias);
  }
}
