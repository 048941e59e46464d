/** The Java and Commons Lang string semantics the publisher relies on:
    strings that may be `null`, whitespace as `Character.isWhitespace` sees it,
    `StringUtils.isBlank`, `StringUtils.defaultIfBlank`, `StringUtils.strip`,
    and the way string concatenation renders a `null` reference. */
module JavaStrings {
  import opened Wrappers

  /** A Java `String` reference: `None` stands for `null`. */
  type JString = Option<string>

  /** `Character.isWhitespace`: the ASCII controls TAB, LF, VT, FF, CR and
      FS, GS, RS, US, the space separators other than the non-breaking ones
      (U+00A0, U+2007, U+202F), and the line and paragraph separators. */
  predicate IsWhitespace(c: char) {
    var n := c as int;
    (0x09 <= n <= 0x0D) || (0x1C <= n <= 0x20) || n == 0x1680
    || (0x2000 <= n <= 0x2006) || (0x2008 <= n <= 0x200A)
    || n == 0x2028 || n == 0x2029 || n == 0x205F || n == 0x3000
  }

  predicate AllWhitespace(s: string) {
    forall i :: 0 <= i < |s| ==> IsWhitespace(s[i])
  }

  /** `StringUtils.isBlank`: null, empty, or whitespace only. */
  predicate IsBlank(s: JString) {
    s.None? || AllWhitespace(s.value)
  }

  /** `StringUtils.defaultIfBlank`: the string itself unless it is blank. */
  function DefaultIfBlank(s: JString, defaultStr: JString): JString {
    if IsBlank(s) then defaultStr else s
  }

  /** `StringUtils.stripStart` with a null strip set: drops leading whitespace. */
  function StripStart(s: string): (r: string)
    ensures |r| <= |s| && r == s[|s| - |r|..]
    ensures AllWhitespace(s[..|s| - |r|])
    ensures r != [] ==> !IsWhitespace(r[0])
  {
    if s != [] && IsWhitespace(s[0]) then
      var r := StripStart(s[1..]);
      assert s[..|s| - |r|] == [s[0]] + s[1..][..|s| - 1 - |r|];
      r
    else
      s
  }

  /** `StringUtils.stripEnd` with a null strip set: drops trailing whitespace. */
  function StripEnd(s: string): (r: string)
    ensures |r| <= |s| && r == s[..|r|]
    ensures AllWhitespace(s[|r|..])
    ensures r != [] ==> !IsWhitespace(r[|r| - 1])
  {
    if s != [] && IsWhitespace(s[|s| - 1]) then
      var r := StripEnd(s[..|s| - 1]);
      assert s[|r|..] == s[..|s| - 1][|r|..] + [s[|s| - 1]];
      r
    else
      s
  }

  /** `StringUtils.strip`: whitespace removed from both ends. */
  function Strip(s: string): string {
    StripEnd(StripStart(s))
  }

  /** Blank is the same as "nothing left after stripping whitespace". */
  lemma BlankIffStripsToEmpty(s: string)
    ensures IsBlank(Some(s)) <==> Strip(s) == []
  {
  }

  /** `"prefix" + s` in Java: a null reference is rendered as "null". */
  function Concat(prefix: string, s: JString): string {
    prefix + (if s.None? then "null" else s.value)
  }
}
