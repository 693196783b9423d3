/**
 * The host tokenizer's character alphabet and the two classification
 * predicates the scanners use (src/index.js:3-17).
 *
 * A real character is a non-negative code; the host encodes tabs, virtual
 * spaces and the line-ending variants as negative sentinels, and end of
 * input as `null`, which is not a number at all.  `Eof` is therefore a
 * constructor of its own, distinct from every integer code.
 */
module CharCodes {
  datatype Code = Eof | Char(value: int)

  const HorizontalTab: int := -2
  const VirtualSpace: int := -1
  const Nul: int := 0
  const Space: int := 32

  /** `code < codes.nul || code === codes.space`; `null < 0` is false in the host language. */
  predicate IsLineEndingOrSpace(code: Code): (r: bool)
    ensures code.Eof? ==> !r
    ensures code.Char? && code.value >= Nul ==> (r <==> code.value == Space)
  {
    code.Char? && (code.value < Nul || code.value == Space)
  }

  /** `code < codes.horizontalTab`: every sentinel below the tab is a line ending. */
  predicate IsLineEnding(code: Code): (r: bool)
    ensures r ==> code.Char? && IsLineEndingOrSpace(code)
    ensures code.Char? && code.value >= HorizontalTab ==> !r
  {
    code.Char? && code.value < HorizontalTab
  }
}
