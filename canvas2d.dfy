/**
 * What the effects use of the browser's 2D canvas context: the font they set
 * before measuring, the text measurement itself (an oracle: glyph metrics
 * belong to the font engine, not to the site), and upper-casing.
 */
module Canvas2D {

  /** A CSS font as the components set it: weight and pixel size ("900 240px 'Inter'"). */
  datatype Font = Font(weight: nat, size: real)

  /** `ctx.measureText(s).width` under the given font. Nothing is assumed of it. */
  type Measure = (Font, string) -> real

  /** One `fillText(text, x, y)` call. */
  datatype TextCall = TextCall(text: string, x: real, y: real)

  function UpperChar(c: char): (u: char)
    ensures 'a' <= c <= 'z' ==> u as int == c as int - 32
    ensures !('a' <= c <= 'z') ==> u == c
  {
    if 'a' <= c <= 'z' then (c as int - 32) as char else c
  }

  /** `String.prototype.toUpperCase`, for the ASCII letters. */
  function ToUpper(s: string): (u: string)
    ensures |u| == |s|
    ensures forall i :: 0 <= i < |s| ==> u[i] == UpperChar(s[i])
  {
    seq(|s|, i requires 0 <= i < |s| => UpperChar(s[i]))
  }

  /** `(n + 1) * d == n * d + d`: a drawing loop's running position after one more step of `d`. */
  lemma MulSucc(n: nat, d: real)
    ensures (n + 1) as real * d == n as real * d + d
  {
  }
}
