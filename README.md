# micromark-extension-wiki-link, modelled in Dafny

micromark-extension-wiki-link adds two inline constructs to the micromark
markdown tokenizer:

- wiki links `[[target]]` and `[[target|alias]]`, registered on `[`;
- image links `![[target]]` and `![[target|alias]]`, registered on `!`.

The host tokenizer owns the input. When it meets a trigger character, it
starts one of these scanners there. It then feeds the scanner one character
code at a time until the scanner answers `ok(code)` (a link was recognised)
or `nok(code)` (not a link here; the host backtracks). Along the way the
scanner asks the host to open spans (`enter`), close them (`exit`) and
consume codes into them (`consume`).

This project models that core: the two scanners of `src/index.js`, the two
character classifications they use, and the default alias divider. It then
proves what the scanners accept, what they reject, and what the emitted
spans look like.

Layout:

- `char_codes.dfy` (`CharCodes`): the host's character codes. End of input
  (`null`) is a constructor of its own. `markdownLineEnding` and
  `markdownLineEndingOrSpace` are predicates over codes.
- `scanner.dfy` (`Scanner`): the two `tokenize` closures are one machine
  over different constants (`Config`: start marker, end marker, alias
  marker, tag prefix). Each state function becomes a pure step function
  from the closure's variables and a code to the spans emitted, the reply
  and the new variables. A state function that hands its code on
  (`return consumeData(code)`) calls the next step function. `RunFrom` and
  `Scan` feed a sequence of codes to a run.
- `tokenizer.dfy` (`Tokenizer`): the closure as an object. Its cursors and
  flags are fields, each state function is a method that updates them, and
  `Tokenize` is the host's feeding loop. Each method is proved to do what
  its step function says, and the loop to compute `Scan`.
- `grammar.dfy` (`Grammar`): which texts are links (`IsLink`), their text
  (`Source`) and the spans a recognised link produces (`Expected`).
- `phases.dfy`, `theorems.dfy` (`Phases`, `Theorems`): runs through each
  phase of a link, leading to `Recognises`. A fresh run accepts exactly when
  the input begins with a link; it then emits exactly that link's spans and
  accepts the next code.
- `properties.dfy` (`Properties`): every way a run is refused. Runs never
  cross a line ending. The `alias` flag has no effect.
- `nesting.dfy` (`Nesting`): the spans of an accepted run nest properly and
  consume exactly the link's text.
- `wiki_link.dfy` (`WikiLink`): the options, the two configurations, their
  registration under trigger codes, and the fact that an image link is `!`
  followed by a link.
- `scenarios.dfy` (`Scenarios`): worked examples, derived from the general
  theorems.

Behaviour worth knowing, all proved:

- A target needs content: at least one code that is not a line ending,
  tab, virtual space or space (a code of 0 or more other than 32). A target
  holding only a tab (`[[\t]]`, fed as -2 then -1) is refused.
- An alias may be empty (`[[note|]]`) and may contain further dividers
  (`[[a|b|c]]` has the alias `b|c`).
- The first character of the end marker always commits to the end marker:
  a single `]` inside a target makes the whole run fail (`[[a]b]]`). The
  same holds for the first character of a multi-character divider.
  This follows the code, which is stricter than a rule forbidding only
  `]]` inside targets.
- An alias marker before any target content is refused. It is not consumed
  as ordinary text.
- A divider option that starts with `]` makes every link without an alias
  unrecognisable. `IsLink` excludes that case explicitly.

## Model

| member | source | states |
|---|---|---|
| CharCodes.IsLineEndingOrSpace | src/index.js:11-13 | end of input is not a space or line ending; a real character (code ≥ 0) is one exactly when it is the space |
| CharCodes.IsLineEnding | src/index.js:15-17 | every line ending is also a line-ending-or-space code; no code at or above the tab sentinel, and not end of input, is a line ending |
| Scanner.EachCodeOneWay | src/index.js:181-301 | in every state, a fed code is either consumed exactly once (and is then a real character, not a line ending) with a next state returned, or handed unconsumed to `ok`/`nok` with the closure unchanged; a first code that is not the start marker's first character is refused with no effect at all |
| Scanner.RunConsumesPrefix | src/index.js:181-301 | the codes a run consumes are a prefix of its input, in order; a run still waiting has consumed all of it; `ok`/`nok` carry the first code not consumed |
| Scanner.StartStep | src/index.js:181-189 | no contract of its own: the body is `start`, with the tests and effects in the source's order; its behaviour is stated by `Scanner.EachCodeOneWay` and `Tokenizer.WikiTokenizer.Start` |
| Scanner.ConsumeStartStep | src/index.js:191-205 | no contract of its own: the body is `consumeStart`; stated by `Scanner.EachCodeOneWay`, `Phases.MarkerRun` and `Tokenizer.WikiTokenizer.ConsumeStart` |
| Scanner.ConsumeDataStep | src/index.js:207-215 | no contract of its own: the body is `consumeData`; stated by `Tokenizer.WikiTokenizer.ConsumeData` and `Properties.TargetBreakRejected` |
| Scanner.ConsumeTargetStep | src/index.js:217-244 | no contract of its own: the body is `consumeTarget`, with the divider tested before the end marker; stated by `Scanner.EachCodeOneWay`, `Phases.TargetRun` and `Tokenizer.WikiTokenizer.ConsumeTarget` |
| Scanner.ConsumeAliasMarkerStep | src/index.js:246-261 | no contract of its own: the body is `consumeAliasMarker`; stated by `Scanner.EachCodeOneWay`, `Phases.MarkerRun` and `Tokenizer.WikiTokenizer.ConsumeAliasMarker` |
| Scanner.ConsumeAliasStep | src/index.js:263-284 | no contract of its own: the body is `consumeAlias`; stated by `Scanner.EachCodeOneWay`, `Phases.AliasRun` and `Tokenizer.WikiTokenizer.ConsumeAlias` |
| Scanner.ConsumeEndStep | src/index.js:286-301 | no contract of its own: the body is `consumeEnd`; stated by `Scanner.EachCodeOneWay`, `Theorems.EndingRun` and `Tokenizer.WikiTokenizer.ConsumeEnd` |
| Scanner.Dispatch | src/index.js:179-301 | no contract of its own: calls the state function the run is suspended in, as the host calls the function last returned; stated by `Scanner.EachCodeOneWay` and `Tokenizer.WikiTokenizer.Step` |
| Scanner.RunFrom | src/index.js:179-301 | no contract of its own: feeds codes one at a time until a state function answers `ok` or `nok`, or the codes run out; stated by `Scanner.RunConsumesPrefix`, `Tokenizer.Tokenize` and the theorems below |
| Scanner.Scan | src/index.js:171-179 | no contract of its own: a fresh run (cursors 0, flags false, state `start`) fed the whole input; stated by `Theorems.Recognises`, `Properties.HostInputDecided` and `Tokenizer.Tokenize` |
| Tokenizer.WikiTokenizer.constructor | src/index.js:171-179 | a fresh run starts in `start` with all three cursors at 0, both flags false and no effects |
| Tokenizer.WikiTokenizer.Start | src/index.js:181-189 | `start`: refuses a code other than the start marker's current character; otherwise opens the outer and marker spans and hands the code to `consumeStart` |
| Tokenizer.WikiTokenizer.ConsumeStart | src/index.js:191-205 | `consumeStart`: at the end of the start marker, closes the marker span and hands the code to `consumeData`; otherwise consumes the matching character and advances the cursor, or refuses |
| Tokenizer.WikiTokenizer.ConsumeData | src/index.js:207-215 | `consumeData`: refuses a line ending or end of input, otherwise opens the data and target spans and hands the code to `consumeTarget` |
| Tokenizer.WikiTokenizer.ConsumeTarget | src/index.js:217-244 | `consumeTarget`: an alias-marker character (checked first) or end-marker character is refused without target content and otherwise switches spans and hands the code on; a line ending or end of input is refused; anything else is consumed and sets `data` unless it is a line-ending-or-space code (negative, or 32) |
| Tokenizer.WikiTokenizer.ConsumeAliasMarker | src/index.js:246-261 | `consumeAliasMarker`: at the end of the divider, closes its span, opens the alias span and hands the code on; otherwise consumes the matching character or refuses |
| Tokenizer.WikiTokenizer.ConsumeAlias | src/index.js:263-284 | `consumeAlias`: an end-marker character closes the alias and data spans whatever `alias` is; a line ending or end of input is refused; anything else is consumed and sets `alias` unless it is a line-ending-or-space code (negative, or 32) |
| Tokenizer.WikiTokenizer.ConsumeEnd | src/index.js:286-301 | `consumeEnd`: at the end of the end marker, closes the marker and outer spans and answers `ok(code)`; otherwise consumes the matching character or refuses |
| Tokenizer.WikiTokenizer.Step | src/index.js:179-301 | feeding a code to the current state function records exactly its effects and remembers the state function it returns |
| Tokenizer.Tokenize | src/index.js:171-301 | feeding the input code by code from a fresh run yields exactly `Scan`: the same effects and the same verdict |
| Phases.MarkerRun | src/index.js:191-205 | from any cursor, the rest of a marker literal is consumed code by code, leaving the cursor at the marker's end |
| Phases.MarkerMismatch | src/index.js:197-199 | in any marker state, a code that breaks the literal after any number of matching characters is refused |
| Phases.TargetRun | src/index.js:217-244 | target codes are consumed one by one, staying in the target state, with `data` becoming true if one of them is content (not a line ending, tab, virtual space or space: a code of 0 or more other than 32) and unchanged otherwise |
| Phases.AliasRun | src/index.js:263-284 | alias codes, including divider characters, are consumed one by one, staying in the alias state |
| Theorems.OpeningRun | src/index.js:181-215 | the start marker leads a fresh run into the target state with the outer, marker, data and target spans opened and the marker consumed |
| Theorems.EndingRun | src/index.js:286-301 | the end marker is consumed, then the marker and outer spans close and the next code is accepted |
| Theorems.AcceptsLink | src/index.js:181-301 | completeness: a link followed by any code is accepted with exactly the link's spans, and `ok` carries that code |
| Theorems.AcceptedIsLink | src/index.js:181-301 | soundness: every accepted input begins with a link and goes on past it |
| Theorems.Recognises | src/index.js:181-301 | a fresh run accepts if and only if its input starts with a link and does not end there |
| Theorems.AcceptedFrom | src/index.js:181-301 | a link that is a proper prefix of the input is accepted with its spans; `ok` carries the code right after it |
| Properties.FirstCodeDecides | src/index.js:181-183 | a first code that is not the start marker's first character is refused with no spans opened |
| Properties.BrokenStartMarker | src/index.js:191-199 | a code that breaks the start marker after a matching prefix is refused |
| Properties.BlankTargetRejected | src/index.js:217-231 | the divider or `]` after a target of spaces only (or none) is refused, as in `[[]]` and `[[ ]]` |
| Properties.TargetBreakRejected | src/index.js:207-235 | a line ending or end of input anywhere before the divider or end marker is refused |
| Properties.AliasReached | src/index.js:246-284 | the divider and alias codes lead from the alias-marker state to the alias state |
| Properties.AliasBreakRejected | src/index.js:263-275 | a line ending or end of input inside an alias is refused |
| Properties.EndMarkerMustComplete | src/index.js:225-295 | the first `]` in a target commits to the end marker; a code that breaks it is refused (`[[a]b]]`) |
| Properties.DividerMustComplete | src/index.js:218-255 | the first character of a multi-character divider commits to the divider; a code that breaks it is refused |
| Properties.StopsAtLineEnding | src/index.js:207-284 | no run, from any state, gets past a line ending or end of input: it has answered by then and consumed only codes before it |
| Properties.HostInputDecided | src/index.js:181-301 | on input ending with end of input, as the host always feeds it, a run never waits for more, and it is refused exactly when no link is a prefix of the input |
| Properties.StepIgnoresAlias | src/index.js:263-284 | two closures that differ only in `alias` take the same step: same effects, same reply, closures still differing only in `alias` |
| Properties.AliasFlagUnused | src/index.js:263-284 | the `alias` flag is written but never read: runs that differ only in it emit the same effects and reach the same verdict |
| Nesting.ExpectedShape | src/index.js:181-301 | a link's spans are the tree outer ⊃ {marker, data ⊃ {target, [alias marker, alias]}, marker} flattened |
| Nesting.ExpectedWellNested | src/index.js:181-301 | every exit in a link's spans closes the innermost open span, codes are consumed only inside spans, and all spans close |
| Nesting.ExpectedConsumesSource | src/index.js:181-301 | the codes a link's spans consume are exactly the link's text |
| Nesting.AcceptedRun | src/index.js:181-301 | an accepted run began with a link, emitted exactly its spans, which are well nested and consume exactly its text, and accepted the code after it |
| WikiLink.AliasMarkerOf | src/index.js:165-167 | the divider is never empty: it is the option when that is a non-empty string, and the vertical bar (code 124) when the option is absent or empty |
| WikiLink.LinkConfig | src/index.js:164-169 | the link scanner's markers `[[`, `]]` and the divider are all non-empty |
| WikiLink.ImgLinkConfig | src/index.js:19-24 | the image scanner's markers `![[`, `]]` and the divider are all non-empty |
| WikiLink.WikiLinkExtension | src/index.js:304-308 | the link scanner is registered only under `[`, the first character of its start marker |
| WikiLink.WikiImgLinkExtension | src/index.js:157-161 | the image scanner is registered only under `!`, the first character of its start marker |
| WikiLink.AcceptedOnlyAtTrigger | src/index.js:157-161 | a registered scanner accepts only input that begins with its trigger code |
| WikiLink.ImageLinksAreBangLinks | src/index.js:19-162 | the image scanner accepts exactly `!` followed by input that the link scanner accepts, and both accept the same code |
| Scenarios.PlainLink | src/index.js:164-309 | `[[note]]` is accepted with target `note` and no alias spans |
| Scenarios.AliasedLink | src/index.js:246-284 | the link with target `a`, the default divider and alias `b c` is accepted with exactly those spans |
| Scenarios.EmptyAlias | src/index.js:263-271 | `[[note`, the default divider, then `]]` is accepted with an empty alias span |
| Scenarios.DividerInAlias | src/index.js:263-284 | a second divider after the first is alias text: the alias is `b`, divider, `c` |
| Scenarios.ImageLink | src/index.js:19-24 | `![[a.png]]` is accepted by the image scanner |
| Scenarios.CustomDivider | src/index.js:165-167 | with the divider `:`, `[[a:b]]` is accepted with alias `b` |
| Scenarios.EmptyLinkRejected | src/index.js:225-226 | `[[]]` is refused at its first `]` |
| Scenarios.BlankLinkRejected | src/index.js:225-239 | `[[ ]]` is refused at its first `]` |
| Scenarios.TabTargetRejected | src/index.js:233-239 | a target holding only a tab (codes -2 then -1) has no content, so `[[`, tab, `]]` is refused at its first `]` |
| Scenarios.AliasOnlyRejected | src/index.js:218-219 | a divider straight after `[[` is refused at the divider |
| Scenarios.SingleBracketRejected | src/index.js:197-199 | `[T]]` is refused at `T` |
| Scenarios.SplitEndMarkerRejected | src/index.js:293-295 | `[[a]b]]` is refused at `b` |
| Scenarios.UnclosedAliasRejected | src/index.js:273-275 | an alias still open at the end of input is refused there |
| Scenarios.TargetLineBreakRejected | src/index.js:233-235 | a line ending inside a target is refused |

## Left out

- `html` (the HTML compiler re-exported at src/index.js:1 and 311): it is not part of this model.
- The host tokenizer: it is modelled only as the loop in `Tokenizer.Tokenize`. What the host does with the effects of a refused run is not modelled: it discards them and backtracks. A refused run's `Result` holds the effects emitted before the refusal, as the code emits them.
- Option values other than an absent option or a string are not modelled. The model does not capture JavaScript's coercion of non-string truthy values such as numbers or objects; the options are `Option<seq<CodeUnit>>`.
- Characters are UTF-16 code units taken from the marker strings (`charCodeAt`). Input codes are integers, with end of input as a separate constructor, so surrogate pairs get no special treatment, as in the code.
- Theorems.Recognises: stated only for configurations whose three markers are non-empty. Every configuration the code can build has non-empty markers, because `WikiLink.AliasMarkerOf` replaces an empty divider with the default. Configurations with an empty marker are therefore not covered.
