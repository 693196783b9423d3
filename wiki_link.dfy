/**
 * The two syntax extensions of src/index.js: `wikiLink` (`[[target|alias]]`,
 * registered on `[`) and `wikiImgLink` (`![[target|alias]]`, registered on
 * `!`). Each one builds a scanner configuration from its options and
 * registers it in the `text` construct map under its trigger code.
 */
module WikiLink {
  import opened Wrappers
  import opened CharCodes
  import opened Scanner
  import opened Grammar
  import opened Properties
  import opened Theorems

  const Bang: CodeUnit := 33
  const LeftBracket: CodeUnit := 91
  const RightBracket: CodeUnit := 93
  const VerticalBar: CodeUnit := 124

  /** The options object; only `aliasDivider` is read, as a string when present. */
  datatype Options = Options(aliasDivider: Option<seq<CodeUnit>>)

  /** An extension: the `text` constructs keyed by the code that triggers them. */
  datatype Extension = Extension(text: map<int, Config>)

  /**
   * The alias marker: the divider option when it is a non-empty string, and
   * `|` when it is absent or empty (both are falsy for `||`).
   */
  function AliasMarkerOf(opts: Options): (m: seq<CodeUnit>)
    ensures |m| > 0
    ensures opts.aliasDivider.Some? && opts.aliasDivider.value != [] ==> m == opts.aliasDivider.value
    ensures opts.aliasDivider.None? || opts.aliasDivider.value == [] ==> m == [VerticalBar]
  {
    match opts.aliasDivider
    case Some(d) => if d != [] then d else [VerticalBar]
    case None => [VerticalBar]
  }

  function LinkConfig(opts: Options): (cfg: Config)
    ensures ValidConfig(cfg)
  {
    Config([LeftBracket, LeftBracket], [RightBracket, RightBracket], AliasMarkerOf(opts), "wikiLink")
  }

  function ImgLinkConfig(opts: Options): (cfg: Config)
    ensures ValidConfig(cfg)
  {
    Config([Bang, LeftBracket, LeftBracket], [RightBracket, RightBracket], AliasMarkerOf(opts), "wikiImgLink")
  }

  /** Every construct is registered under the first code of its start marker. */
  predicate Triggered(ext: Extension)
  {
    forall k :: k in ext.text ==> ValidConfig(ext.text[k]) && ext.text[k].startMarker[0] == k
  }

  function WikiLinkExtension(opts: Options): (ext: Extension)
    ensures Triggered(ext) && ext.text.Keys == {LeftBracket as int}
  {
    Extension(map[LeftBracket as int := LinkConfig(opts)])
  }

  function WikiImgLinkExtension(opts: Options): (ext: Extension)
    ensures Triggered(ext) && ext.text.Keys == {Bang as int}
  {
    Extension(map[Bang as int := ImgLinkConfig(opts)])
  }

  /** A scanner accepts only input that begins with its trigger code: the registration never hides a link. */
  lemma AcceptedOnlyAtTrigger(ext: Extension, k: int, input: seq<Code>)
    requires Triggered(ext) && k in ext.text
    ensures Scan(ext.text[k], input).verdict.Ok? ==> |input| > 0 && input[0] == Char(k)
  {
    var cfg := ext.text[k];
    if |input| > 0 && input[0] != Char(k) {
      FirstCodeDecides(cfg, input);
    }
  }

  /** Only the alias marker and end marker decide what a link is; the start marker does not. */
  lemma SameLinks(c1: Config, c2: Config, t: seq<Code>, alias: Option<seq<Code>>)
    requires ValidConfig(c1) && ValidConfig(c2)
    requires c1.aliasMarker == c2.aliasMarker && c1.endMarker == c2.endMarker
    ensures IsLink(c1, t, alias) == IsLink(c2, t, alias)
  {
    assert forall c :: TargetCode(c1, c) == TargetCode(c2, c);
    assert forall c :: AliasCode(c1, c) == AliasCode(c2, c);
  }

  lemma ImgSource(opts: Options, t: seq<Code>, alias: Option<seq<Code>>)
    ensures Source(ImgLinkConfig(opts), t, alias) == [Char(Bang)] + Source(LinkConfig(opts), t, alias)
  {
    assert Lift([Bang, LeftBracket, LeftBracket]) == [Char(Bang)] + Lift([LeftBracket, LeftBracket]);
  }

  /**
   * An image link is a `!` followed by a link: the image scanner accepts
   * exactly when the input starts with `!` and the link scanner accepts the
   * rest, and both then accept the same code.
   */
  lemma ImageLinksAreBangLinks(opts: Options, input: seq<Code>)
    ensures Scan(ImgLinkConfig(opts), input).verdict.Ok? <==>
            |input| > 0 && input[0] == Char(Bang) && Scan(LinkConfig(opts), input[1..]).verdict.Ok?
    ensures Scan(ImgLinkConfig(opts), input).verdict.Ok? ==>
            Scan(ImgLinkConfig(opts), input).verdict == Scan(LinkConfig(opts), input[1..]).verdict
  {
    if Scan(ImgLinkConfig(opts), input).verdict.Ok? {
      ImageIsBangLink(opts, input);
    }
    if |input| > 0 && input[0] == Char(Bang) && Scan(LinkConfig(opts), input[1..]).verdict.Ok? {
      BangLinkIsImage(opts, input);
    }
  }

  lemma ImageIsBangLink(opts: Options, input: seq<Code>)
    requires Scan(ImgLinkConfig(opts), input).verdict.Ok?
    ensures |input| > 0 && input[0] == Char(Bang)
    ensures Scan(ImgLinkConfig(opts), input).verdict == Scan(LinkConfig(opts), input[1..]).verdict
  {
    var img, link := ImgLinkConfig(opts), LinkConfig(opts);
    var t, alias, rest := AcceptedIsLink(img, input);
    SameLinks(img, link, t, alias);
    ImgSource(opts, t, alias);
    assert input[1..] == Source(link, t, alias) + rest;
    AcceptedFrom(img, t, alias, input);
    AcceptedFrom(link, t, alias, input[1..]);
  }

  lemma BangLinkIsImage(opts: Options, input: seq<Code>)
    requires |input| > 0 && input[0] == Char(Bang) && Scan(LinkConfig(opts), input[1..]).verdict.Ok?
    ensures Scan(ImgLinkConfig(opts), input).verdict.Ok?
  {
    var img, link := ImgLinkConfig(opts), LinkConfig(opts);
    var t, alias, rest := AcceptedIsLink(link, input[1..]);
    SameLinks(img, link, t, alias);
    ImgSource(opts, t, alias);
    assert input == [input[0]] + input[1..];
    assert Source(img, t, alias) < input;
    AcceptedFrom(img, t, alias, input);
  }
}
