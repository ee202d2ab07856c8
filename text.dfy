/** The JavaScript string built-ins the extension relies on: `trim`,
    `toUpperCase`, `substring` and the hex-colour regular expression
    `/^#[0-9A-F]{6}$/i`. */
module Text {

  /** ECMAScript WhiteSpace and LineTerminator code points: what
      `String.prototype.trim` removes (tab, line tabulation, form feed,
      space, no-break space, the byte-order mark, the space separators of
      category Zs, line feed, carriage return, line and paragraph separator). */
  const JS_WHITESPACE: set<char> :=
    {'\t', '\U{B}', '\U{C}', ' ', '\U{A0}', '\U{FEFF}',
     '\U{1680}', '\U{2000}', '\U{2001}', '\U{2002}', '\U{2003}', '\U{2004}', '\U{2005}',
     '\U{2006}', '\U{2007}', '\U{2008}', '\U{2009}', '\U{200A}', '\U{202F}', '\U{205F}', '\U{3000}',
     '\n', '\r', '\U{2028}', '\U{2029}'}

  predicate IsJsWhitespace(c: char) {
    c in JS_WHITESPACE
  }

  predicate AllWhitespace(s: string) {
    forall k :: 0 <= k < |s| ==> IsJsWhitespace(s[k])
  }

  /** The number of whitespace characters at the front of `s`: all of them
      whitespace, and the next character (if any) is not. */
  function LeadingWhitespace(s: string): (n: nat)
    ensures n <= |s|
    ensures forall k :: 0 <= k < n ==> IsJsWhitespace(s[k])
    ensures n == |s| || !IsJsWhitespace(s[n])
  {
    if s != [] && IsJsWhitespace(s[0]) then 1 + LeadingWhitespace(s[1..]) else 0
  }

  /** Where the trailing whitespace of `s` begins: everything from there on
      is whitespace, and the character before it (if any) is not. */
  function ContentEnd(s: string): (e: nat)
    ensures e <= |s|
    ensures forall k :: e <= k < |s| ==> IsJsWhitespace(s[k])
    ensures e == 0 || !IsJsWhitespace(s[e - 1])
  {
    if s != [] && IsJsWhitespace(s[|s| - 1]) then ContentEnd(s[..|s| - 1]) else |s|
  }

  /** `String.prototype.trim`: the slice of `s` after its leading whitespace,
      with nothing but whitespace around it, which neither starts nor ends
      with whitespace, and which is empty exactly when `s` is all whitespace. */
  function Trim(s: string): (r: string)
    ensures r == [] || (!IsJsWhitespace(r[0]) && !IsJsWhitespace(r[|r| - 1]))
    ensures LeadingWhitespace(s) + |r| <= |s|
    ensures r == s[LeadingWhitespace(s)..LeadingWhitespace(s) + |r|]
    ensures forall k :: 0 <= k < LeadingWhitespace(s) ==> IsJsWhitespace(s[k])
    ensures forall k :: LeadingWhitespace(s) + |r| <= k < |s| ==> IsJsWhitespace(s[k])
    ensures r == [] <==> AllWhitespace(s)
  {
    var a := LeadingWhitespace(s);
    if a == |s| then [] else s[a..ContentEnd(s)]
  }

  /** `toUpperCase` on one character, for the ASCII letters. */
  function UpperChar(c: char): (u: char)
    ensures ('a' <= c <= 'z') ==> 'A' <= u <= 'Z' && u as int == c as int - 32
    ensures !('a' <= c <= 'z') ==> u == c
  {
    if 'a' <= c <= 'z' then (c as int - 32) as char else c
  }

  /** `String.prototype.toUpperCase` on the ASCII letters: same length, each
      character mapped on its own, and no lower-case ASCII letter left. */
  function Upper(s: string): (r: string)
    ensures |r| == |s|
    ensures forall k :: 0 <= k < |s| ==> r[k] == UpperChar(s[k])
    ensures forall k :: 0 <= k < |r| ==> !('a' <= r[k] <= 'z')
  {
    seq(|s|, k requires 0 <= k < |s| => UpperChar(s[k]))
  }

  /** `s.substring(0, n)` for `n >= 0`: the first `n` characters, or all of
      `s` when it is shorter. */
  function Prefix(s: string, n: nat): (r: string)
    ensures |r| == if |s| < n then |s| else n
    ensures r <= s
  {
    if |s| <= n then s else s[..n]
  }

  predicate IsHexDigit(c: char) {
    ('0' <= c <= '9') || ('a' <= c <= 'f') || ('A' <= c <= 'F')
  }

  /** `/^#[0-9A-F]{6}$/i.test(s)`: a `#` and six hexadecimal digits of
      either case, and nothing else. Under the `i` flag without `u` no
      non-ASCII character folds onto an ASCII one, so the digits are ASCII. */
  function IsHexColor(s: string): (b: bool)
    ensures b <==> |s| == 7 && s[0] == '#'
                   && IsHexDigit(s[1]) && IsHexDigit(s[2]) && IsHexDigit(s[3])
                   && IsHexDigit(s[4]) && IsHexDigit(s[5]) && IsHexDigit(s[6])
    ensures b ==> forall k :: 0 <= k < |s| ==> s[k] as int < 128
  {
    |s| == 7 && s[0] == '#' && forall k :: 1 <= k < 7 ==> IsHexDigit(s[k])
  }

  /** Case does not matter to the colour check: a value passes exactly when
      its upper-cased form does. */
  lemma {:induction false} HexColorIgnoresCase(s: string)
    ensures IsHexColor(Upper(s)) <==> IsHexColor(s)
  {
    if |s| == 7 {
      forall k | 0 <= k < 7 ensures IsHexDigit(Upper(s)[k]) <==> IsHexDigit(s[k]) {
        assert Upper(s)[k] == UpperChar(s[k]);
      }
      assert Upper(s)[0] == UpperChar(s[0]);
    }
  }
}
