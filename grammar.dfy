/**
 * The language a scanner accepts and the effects it emits for it, written
 * declaratively: a link is the start marker, a target, optionally the alias
 * marker and an alias, and the end marker.  The theorems in `Theorems`
 * connect `Scanner.Scan` to these definitions.
 */
module Grammar {
  import opened Wrappers
  import opened CharCodes
  import opened Scanner

  /** A marker literal as the codes the host feeds for it. */
  function Lift(marker: seq<CodeUnit>): (codes: seq<Code>)
    ensures |codes| == |marker|
    ensures forall i :: 0 <= i < |marker| ==> codes[i] == Char(marker[i])
  {
    seq(|marker|, i requires 0 <= i < |marker| => Char(marker[i]))
  }

  /** A code that counts as content: a real character that is not a line ending or a space. */
  predicate Visible(c: Code)
  {
    c.Char? && !IsLineEndingOrSpace(c)
  }

  predicate HasContent(s: seq<Code>)
  {
    exists i :: 0 <= i < |s| && Visible(s[i])
  }

  /** A code that may stand in a target: no line ending, no end of input, and not the first character of either marker. */
  predicate TargetCode(cfg: Config, c: Code)
    requires ValidConfig(cfg)
  {
    c.Char? && !IsLineEnding(c) && c.value != cfg.aliasMarker[0] && c.value != cfg.endMarker[0]
  }

  /** A code that may stand in an alias: the alias marker's characters are ordinary content there. */
  predicate AliasCode(cfg: Config, c: Code)
    requires ValidConfig(cfg)
  {
    c.Char? && !IsLineEnding(c) && c.value != cfg.endMarker[0]
  }

  /** A target: target codes only, at least one of them content. */
  predicate ValidTarget(cfg: Config, t: seq<Code>)
    requires ValidConfig(cfg)
  {
    (forall i :: 0 <= i < |t| ==> TargetCode(cfg, t[i])) && HasContent(t)
  }

  /** An alias: alias codes only, possibly none at all. */
  predicate ValidAlias(cfg: Config, a: seq<Code>)
    requires ValidConfig(cfg)
  {
    forall i :: 0 <= i < |a| ==> AliasCode(cfg, a[i])
  }

  /**
   * `t` and `alias` form a link.  Without an alias the end marker must not
   * begin like the alias marker, since the alias marker is tried first.
   */
  predicate IsLink(cfg: Config, t: seq<Code>, alias: Option<seq<Code>>)
  {
    ValidConfig(cfg) && ValidTarget(cfg, t) &&
    match alias
    case Some(a) => ValidAlias(cfg, a)
    case None => cfg.aliasMarker[0] != cfg.endMarker[0]
  }

  function AliasPart(cfg: Config, alias: Option<seq<Code>>): seq<Code>
  {
    match alias
    case Some(a) => Lift(cfg.aliasMarker) + a
    case None => []
  }

  /** The text of a link: `[[target]]` or `[[target|alias]]` for the link scanner. */
  function Source(cfg: Config, t: seq<Code>, alias: Option<seq<Code>>): seq<Code>
  {
    Lift(cfg.startMarker) + t + AliasPart(cfg, alias) + Lift(cfg.endMarker)
  }

  function ConsumeAll(codes: seq<Code>): (events: seq<Event>)
    ensures |events| == |codes|
    ensures forall i :: 0 <= i < |codes| ==> events[i] == Consume(codes[i])
  {
    seq(|codes|, i requires 0 <= i < |codes| => Consume(codes[i]))
  }

  /** Outer and opening marker span, the start marker, and the opening of the data and target spans. */
  function Opening(cfg: Config): seq<Event>
  {
    [Open(cfg, Outer), Open(cfg, Marker)] + ConsumeAll(Lift(cfg.startMarker)) +
    [Close(cfg, Marker), Open(cfg, Data), Open(cfg, Target)]
  }

  /** The closing marker span with the end marker in it, and the end of the outer span. */
  function Ending(cfg: Config): seq<Event>
  {
    [Open(cfg, Marker)] + ConsumeAll(Lift(cfg.endMarker)) + [Close(cfg, Marker), Close(cfg, Outer)]
  }

  /** What follows the target's codes: the alias-marker and alias spans if there is an alias, then the end. */
  function Closing(cfg: Config, alias: Option<seq<Code>>): seq<Event>
  {
    match alias
    case Some(a) =>
      [Close(cfg, Target), Open(cfg, AliasMarker)] + ConsumeAll(Lift(cfg.aliasMarker)) +
      [Close(cfg, AliasMarker), Open(cfg, Alias)] + ConsumeAll(a) +
      [Close(cfg, Alias), Close(cfg, Data)] + Ending(cfg)
    case None =>
      [Close(cfg, Target), Close(cfg, Data)] + Ending(cfg)
  }

  /**
   * The effects of recognising a link:
   * outer ⊃ {marker, data ⊃ {target, [aliasMarker, alias]}, marker}.
   */
  function Expected(cfg: Config, t: seq<Code>, alias: Option<seq<Code>>): seq<Event>
  {
    Opening(cfg) + ConsumeAll(t) + Closing(cfg, alias)
  }

  /**
   * Replays `events` against a stack of open tags: an exit must close the
   * innermost open span, and codes are consumed only inside some span.
   */
  function Nest(events: seq<Event>, open: seq<string>): Option<seq<string>>
  {
    if events == [] then Some(open)
    else match events[0]
      case Enter(tag) => Nest(events[1..], open + [tag])
      case Exit(tag) =>
        if |open| > 0 && open[|open| - 1] == tag then Nest(events[1..], open[..|open| - 1]) else None
      case Consume(_) => if |open| > 0 then Nest(events[1..], open) else None
  }

  predicate WellNested(events: seq<Event>)
  {
    Nest(events, []) == Some([])
  }
}
