/**
 * Worked examples: particular inputs and what the wiki-link scanners answer.
 */
module Scenarios {
  import opened Wrappers
  import opened CharCodes
  import opened Scanner
  import opened Grammar
  import opened Theorems
  import opened Properties
  import opened WikiLink

  /** The codes of a string, one per character. */
  function Codes(s: string): (codes: seq<Code>)
    ensures |codes| == |s|
    ensures forall i :: 0 <= i < |s| ==> codes[i] == Char(s[i] as int)
  {
    seq(|s|, i requires 0 <= i < |s| => Char(s[i] as int))
  }

  const Default := Options(None)

  /** `[[note]]` is a link to `note`; the scanner accepts the end of input that follows it. */
  lemma PlainLink()
    ensures Scan(LinkConfig(Default), Codes("[[note]]") + [Eof]) ==
            Result(Expected(LinkConfig(Default), Codes("note"), None), Ok(Eof))
  {
    var cfg := LinkConfig(Default);
    var t := Codes("note");
    assert Visible(t[0]);
    assert IsLink(cfg, t, None);
    assert Source(cfg, t, None) + [Eof] + [] == Codes("[[note]]") + [Eof];
    AcceptsLink(cfg, t, None, Eof, []);
  }

  /** `[[a|b c]]` links to `a` with the alias `b c`. */
  lemma AliasedLink()
    ensures Scan(LinkConfig(Default), Codes("[[a|b c]]") + [Eof]) ==
            Result(Expected(LinkConfig(Default), Codes("a"), Some(Codes("b c"))), Ok(Eof))
  {
    var cfg := LinkConfig(Default);
    var t, a := Codes("a"), Codes("b c");
    assert Visible(t[0]);
    assert IsLink(cfg, t, Some(a));
    assert Source(cfg, t, Some(a)) + [Eof] + [] == Codes("[[a|b c]]") + [Eof];
    AcceptsLink(cfg, t, Some(a), Eof, []);
  }

  /** `[[note|]]` is a link with an empty alias: nothing requires the alias to have content. */
  lemma EmptyAlias()
    ensures Scan(LinkConfig(Default), Codes("[[note|]]") + [Eof]) ==
            Result(Expected(LinkConfig(Default), Codes("note"), Some([])), Ok(Eof))
  {
    var cfg := LinkConfig(Default);
    var t := Codes("note");
    assert Visible(t[0]);
    assert IsLink(cfg, t, Some([]));
    assert Source(cfg, t, Some([])) + [Eof] + [] == Codes("[[note|]]") + [Eof];
    AcceptsLink(cfg, t, Some([]), Eof, []);
  }

  /** After the divider, a second divider is ordinary alias text: `[[a|b|c]]` has the alias `b|c`. */
  lemma DividerInAlias()
    ensures Scan(LinkConfig(Default), Codes("[[a|b|c]]") + [Eof]) ==
            Result(Expected(LinkConfig(Default), Codes("a"), Some(Codes("b|c"))), Ok(Eof))
  {
    var cfg := LinkConfig(Default);
    var t, a := Codes("a"), Codes("b|c");
    assert Visible(t[0]);
    assert IsLink(cfg, t, Some(a));
    assert Source(cfg, t, Some(a)) + [Eof] + [] == Codes("[[a|b|c]]") + [Eof];
    AcceptsLink(cfg, t, Some(a), Eof, []);
  }

  /** `![[a.png]]` is an image link to `a.png`. */
  lemma ImageLink()
    ensures Scan(ImgLinkConfig(Default), Codes("![[a.png]]") + [Eof]) ==
            Result(Expected(ImgLinkConfig(Default), Codes("a.png"), None), Ok(Eof))
  {
    var cfg := ImgLinkConfig(Default);
    var t := Codes("a.png");
    assert Visible(t[0]);
    assert IsLink(cfg, t, None);
    assert Source(cfg, t, None) + [Eof] + [] == Codes("![[a.png]]") + [Eof];
    AcceptsLink(cfg, t, None, Eof, []);
  }

  /** With the divider `:`, `[[a:b]]` links to `a` with the alias `b`. */
  lemma CustomDivider()
    ensures Scan(LinkConfig(Options(Some([58]))), Codes("[[a:b]]") + [Eof]) ==
            Result(Expected(LinkConfig(Options(Some([58]))), Codes("a"), Some(Codes("b"))), Ok(Eof))
  {
    var cfg := LinkConfig(Options(Some([58])));
    var t, a := Codes("a"), Codes("b");
    assert Visible(t[0]);
    assert IsLink(cfg, t, Some(a));
    assert Source(cfg, t, Some(a)) + [Eof] + [] == Codes("[[a:b]]") + [Eof];
    AcceptsLink(cfg, t, Some(a), Eof, []);
  }

  /** `[[]]` is refused at its first `]`. */
  lemma EmptyLinkRejected()
    ensures Scan(LinkConfig(Default), Codes("[[]]")).verdict == Nok(Char(RightBracket as int))
  {
    var cfg := LinkConfig(Default);
    assert !HasContent([]);
    assert Lift(cfg.startMarker) + [] + [Char(RightBracket as int)] + Codes("]") == Codes("[[]]");
    BlankTargetRejected(cfg, [], Char(RightBracket as int), Codes("]"));
  }

  /** `[[ ]]` is refused at its first `]`: a target of spaces has no content. */
  lemma BlankLinkRejected()
    ensures Scan(LinkConfig(Default), Codes("[[ ]]")).verdict == Nok(Char(RightBracket as int))
  {
    var cfg := LinkConfig(Default);
    var b := Codes(" ");
    assert !HasContent(b);
    assert Lift(cfg.startMarker) + b + [Char(RightBracket as int)] + Codes("]") == Codes("[[ ]]");
    BlankTargetRejected(cfg, b, Char(RightBracket as int), Codes("]"));
  }

  /** `[[|x]]` is refused at the divider: there is no target before it. */
  lemma AliasOnlyRejected()
    ensures Scan(LinkConfig(Default), Codes("[[|x]]")).verdict == Nok(Char(VerticalBar as int))
  {
    var cfg := LinkConfig(Default);
    assert !HasContent([]);
    assert Lift(cfg.startMarker) + [] + [Char(VerticalBar as int)] + Codes("x]]") == Codes("[[|x]]");
    BlankTargetRejected(cfg, [], Char(VerticalBar as int), Codes("x]]"));
  }

  /** `[T]]` is refused at `T`: the start marker needs both brackets. */
  lemma SingleBracketRejected()
    ensures Scan(LinkConfig(Default), Codes("[T]]")).verdict == Nok(Char('T' as int))
  {
    var cfg := LinkConfig(Default);
    var input := Codes("[T]]");
    assert input[..1] == Lift(cfg.startMarker[..1]);
    BrokenStartMarker(cfg, input, 1);
  }

  /** `[[a]b]]` is refused at `b`: a single `]` in the target is the start of the end marker. */
  lemma SplitEndMarkerRejected()
    ensures Scan(LinkConfig(Default), Codes("[[a]b]]")).verdict == Nok(Char('b' as int))
  {
    var cfg := LinkConfig(Default);
    var t, w := Codes("a"), Codes("]b]]");
    assert Visible(t[0]);
    assert w[..1] == Lift(cfg.endMarker[..1]);
    assert Lift(cfg.startMarker) + t + w == Codes("[[a]b]]");
    EndMarkerMustComplete(cfg, t, w, 1);
  }

  /** `[[a|b` at the end of input is refused there. */
  lemma UnclosedAliasRejected()
    ensures Scan(LinkConfig(Default), Codes("[[a|b") + [Eof]).verdict == Nok(Eof)
  {
    var cfg := LinkConfig(Default);
    var t, a := Codes("a"), Codes("b");
    assert Visible(t[0]);
    assert Lift(cfg.startMarker) + t + Lift(cfg.aliasMarker) + a + [Eof] + [] == Codes("[[a|b") + [Eof];
    AliasBreakRejected(cfg, t, a, Eof, []);
  }

  /** A line ending (here the host's line-feed code, -4) inside a target is refused: links do not span lines. */
  lemma TargetLineBreakRejected()
    ensures Scan(LinkConfig(Default), Codes("[[a") + [Char(-4)] + Codes("b]]")).verdict == Nok(Char(-4))
  {
    var cfg := LinkConfig(Default);
    assert Lift(cfg.startMarker) + Codes("a") == Codes("[[a");
    TargetBreakRejected(cfg, Codes("a"), Char(-4), Codes("b]]"));
  }

  /**
   * A target holding only a tab is blank: the host feeds a tab as the tab
   * code (-2) and a virtual space (-1), and neither is content, so `[[\t]]`
   * is refused at its first `]`.
   */
  lemma TabTargetRejected()
    ensures Scan(LinkConfig(Default), Codes("[[") + [Char(HorizontalTab), Char(VirtualSpace)] + Codes("]]")).verdict ==
            Nok(Char(RightBracket as int))
  {
    var cfg := LinkConfig(Default);
    var b := [Char(HorizontalTab), Char(VirtualSpace)];
    assert !HasContent(b);
    assert Lift(cfg.startMarker) + b + [Char(RightBracket as int)] + Codes("]") == Codes("[[") + b + Codes("]]");
    BlankTargetRejected(cfg, b, Char(RightBracket as int), Codes("]"));
  }
}
