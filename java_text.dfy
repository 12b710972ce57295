/** The pieces of Java's `char` and `String` that the readability counters rely on:
    `Character.isLetterOrDigit`, `String.trim` and `String.toLowerCase`. */
module JavaText {

  /** A Java `char`: one UTF-16 code unit. */
  newtype CodeUnit = u: int | 0 <= u < 0x1_0000

  /** A Java `String`: a sequence of UTF-16 code units, indexed as `charAt` indexes it. */
  type Text = seq<CodeUnit>

  /** U+0020, the largest code unit that `String.trim` strips. */
  const Space: CodeUnit := 0x20

  /** `Character.isLetterOrDigit(char)`. Exact for U+0000..U+024F (Basic Latin, Latin-1,
      Latin Extended-A and -B): the digits 0-9, the letters A-Z and a-z, the Latin-1 letters
      (U+00AA, U+00B5, U+00BA, U+00C0..U+00FF except the signs U+00D7 and U+00F7) and every
      code unit of the two Latin Extended blocks. Code units above U+024F count as neither. */
  predicate IsLetterOrDigit(c: CodeUnit)
    ensures IsLetterOrDigit(c) ==> c > Space
  {
    (0x30 <= c <= 0x39) || (0x41 <= c <= 0x5A) || (0x61 <= c <= 0x7A)
    || c == 0xAA || c == 0xB5 || c == 0xBA
    || (0xC0 <= c <= 0x24F && c != 0xD7 && c != 0xF7)
  }

  /** Strips the leading code units at or below U+0020: what remains starts with a
      code unit above U+0020, and everything removed was at or below it. */
  function TrimStart(s: Text): (r: Text)
    ensures |r| <= |s| && r == s[|s| - |r|..]
    ensures r == [] || r[0] > Space
    ensures forall i :: 0 <= i < |s| - |r| ==> s[i] <= Space
  {
    if s != [] && s[0] <= Space then TrimStart(s[1..]) else s
  }

  /** Strips the trailing code units at or below U+0020. */
  function TrimEnd(s: Text): (r: Text)
    ensures |r| <= |s| && r == s[..|r|]
    ensures r == [] || r[|r| - 1] > Space
    ensures forall i :: |r| <= i < |s| ==> s[i] <= Space
  {
    if s != [] && s[|s| - 1] <= Space then TrimEnd(s[..|s| - 1]) else s
  }

  /** `String.trim()`: the slice of `s` left after stripping every leading and trailing
      code unit at or below U+0020. It is empty exactly when `s` holds no code unit above
      U+0020, and otherwise it starts and ends with one. */
  function Trim(s: Text): (r: Text)
    ensures r == [] <==> forall i :: 0 <= i < |s| ==> s[i] <= Space
    ensures r != [] ==> r[0] > Space && r[|r| - 1] > Space
    ensures |r| <= |s|
  {
    TrimEnd(TrimStart(s))
  }

  /** Lower-casing of one code unit as `String.toLowerCase()` does it for the upper-case
      letters of Basic Latin and Latin-1; other code units are kept. A letter or digit
      stays one and a code unit above U+0020 stays above it. */
  function LowerUnit(c: CodeUnit): (r: CodeUnit)
    ensures IsLetterOrDigit(r) == IsLetterOrDigit(c)
    ensures (r <= Space) == (c <= Space)
    ensures 0x61 <= r <= 0x7A ==> (c == r || c == r - 0x20)
  {
    if (0x41 <= c <= 0x5A) || (0xC0 <= c <= 0xDE && c != 0xD7) then c + 0x20 else c
  }

  /** `String.toLowerCase()`, one code unit at a time. */
  function ToLowerCase(s: Text): (r: Text)
    ensures |r| == |s|
    ensures forall i :: 0 <= i < |s| ==> IsLetterOrDigit(r[i]) == IsLetterOrDigit(s[i])
    ensures forall i :: 0 <= i < |s| ==> (r[i] <= Space) == (s[i] <= Space)
  {
    seq(|s|, i requires 0 <= i < |s| => LowerUnit(s[i]))
  }
}
