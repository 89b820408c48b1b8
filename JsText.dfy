/**
  The few JavaScript string built-ins the application relies on, modelled on
  `seq<char>`:
  - `n.toString()` for a natural number (`DecimalString`), with a parser
    (`DecimalValue`) as its partner;
  - `s.split(c)[0]` (`BeforeFirst`);
  - `s.trim()` (`Trim`), which removes ECMAScript WhiteSpace and
    LineTerminator code points from both ends.
*/
module JsText {

  // ---------------------------------------------------------------------------
  // Number.prototype.toString() on a non-negative integer
  // ---------------------------------------------------------------------------

  predicate IsDigit(c: char) {
    '0' <= c <= '9'
  }

  function DigitChar(d: nat): (c: char)
    requires d < 10
    ensures IsDigit(c)
    ensures c as int - '0' as int == d
  {
    (48 + d) as char
  }

  /** The decimal numeral of `n`, without sign or leading zeros. */
  function DecimalString(n: nat): (s: string)
    ensures 0 < |s|
    ensures forall k :: 0 <= k < |s| ==> IsDigit(s[k])
    ensures s[0] == '0' ==> n == 0
    decreases n
  {
    if n < 10 then [DigitChar(n)] else DecimalString(n / 10) + [DigitChar(n % 10)]
  }

  function DigitValue(c: char): (d: nat)
    requires IsDigit(c)
    ensures d < 10
  {
    c as int - '0' as int
  }

  /** Reads a string of decimal digits back as a number. */
  function DecimalValue(s: string): (n: nat)
    requires forall k :: 0 <= k < |s| ==> IsDigit(s[k])
  {
    if s == [] then 0
    else DecimalValue(s[..|s| - 1]) * 10 + DigitValue(s[|s| - 1])
  }

  /** Parsing the numeral of `n` gives `n` back. */
  lemma {:induction false} DecimalRoundTrip(n: nat)
    ensures DecimalValue(DecimalString(n)) == n
    decreases n
  {
    var s := DecimalString(n);
    if n >= 10 {
      DecimalRoundTrip(n / 10);
      assert s[..|s| - 1] == DecimalString(n / 10);
    }
  }

  /** Distinct numbers have distinct numerals. */
  lemma DecimalStringInjective(m: nat, n: nat)
    requires DecimalString(m) == DecimalString(n)
    ensures m == n
  {
    DecimalRoundTrip(m);
    DecimalRoundTrip(n);
  }

  // ---------------------------------------------------------------------------
  // String.prototype.split(c)[0]
  // ---------------------------------------------------------------------------

  /**
    The first field of `s.split(c)`: the longest prefix of `s` free of `c`.
    When `c` does not occur, that is all of `s`.
  */
  function BeforeFirst(s: string, c: char): (r: string)
    ensures r <= s
    ensures c !in r
    ensures |r| < |s| ==> s[|r|] == c
  {
    if s == [] || s[0] == c then [] else [s[0]] + BeforeFirst(s[1..], c)
  }

  /** The three facts of `BeforeFirst`'s contract pin its result down. */
  lemma BeforeFirstUnique(s: string, c: char, r: string)
    requires r <= s && c !in r
    requires |r| < |s| ==> s[|r|] == c
    ensures r == BeforeFirst(s, c)
  {
  }

  // ---------------------------------------------------------------------------
  // String.prototype.trim()
  // ---------------------------------------------------------------------------

  /** ECMAScript WhiteSpace (TAB, VT, FF, SP, NBSP, ZWNBSP, category Zs) and LineTerminator. */
  predicate IsJsSpace(c: char) {
    // WhiteSpace: TAB, VT, FF, SP, NBSP, ZWNBSP and the other Zs code points
    c == '\U{9}' || c == '\U{B}' || c == '\U{C}' || c == '\U{20}' || c == '\U{A0}' || c == '\U{FEFF}'
    || c == '\U{1680}' || ('\U{2000}' <= c <= '\U{200A}') || c == '\U{202F}' || c == '\U{205F}' || c == '\U{3000}'
    // LineTerminator: LF, CR, LS, PS
    || c == '\U{A}' || c == '\U{D}' || c == '\U{2028}' || c == '\U{2029}'
  }

  predicate AllSpaces(s: string) {
    forall k :: 0 <= k < |s| ==> IsJsSpace(s[k])
  }

  /** No white space at either end. */
  predicate Trimmed(s: string) {
    s == [] || (!IsJsSpace(s[0]) && !IsJsSpace(s[|s| - 1]))
  }

  /** The number of white-space characters `s` starts with. */
  function LeadingSpaces(s: string): (i: nat)
    ensures i <= |s| && AllSpaces(s[..i])
    ensures i < |s| ==> !IsJsSpace(s[i])
  {
    if s == [] || !IsJsSpace(s[0]) then 0 else 1 + LeadingSpaces(s[1..])
  }

  /** The length of `s` once its trailing white space is cut off. */
  function EndOfText(s: string): (j: nat)
    ensures j <= |s| && AllSpaces(s[j..])
    ensures 0 < j ==> !IsJsSpace(s[j - 1])
  {
    if s == [] || !IsJsSpace(s[|s| - 1]) then |s| else EndOfText(s[..|s| - 1])
  }

  /** `s.trim()`: the result neither starts nor ends with white space. */
  function Trim(s: string): (r: string)
    ensures Trimmed(r)
    ensures |r| <= |s|
  {
    var i, j := LeadingSpaces(s), EndOfText(s);
    if i < j then s[i..j] else []
  }

  /**
    What `Trim` removes is white space only: `s` is some white space, then
    `Trim(s)`, then some white space. The out-parameter says where it starts.
  */
  lemma TrimSplits(s: string) returns (i: nat)
    ensures i + |Trim(s)| <= |s|
    ensures s[i..i + |Trim(s)|] == Trim(s)
    ensures AllSpaces(s[..i]) && AllSpaces(s[i + |Trim(s)|..])
  {
    var a, b := LeadingSpaces(s), EndOfText(s);
    if a < b {
      i := a;
    } else {
      i := 0;
      assert AllSpaces(s) by {
        forall k | 0 <= k < |s| ensures IsJsSpace(s[k]) {
          assert s[..a][k] == s[k];
        }
      }
      assert s[..0] == [] && s[0..] == s;
    }
  }

  /** Trimming yields the empty string exactly when the input is all white space. */
  lemma TrimEmptyIff(s: string)
    ensures Trim(s) == [] <==> AllSpaces(s)
  {
    var i := TrimSplits(s);
    if Trim(s) == [] {
      assert s == s[..i] + s[i..];
    }
  }

  /** A string that is already trimmed is left alone. */
  lemma TrimOfTrimmed(s: string)
    requires Trimmed(s)
    ensures Trim(s) == s
  {
  }

  /** Trimming twice is trimming once. */
  lemma TrimIdempotent(s: string)
    ensures Trim(Trim(s)) == Trim(s)
  {
    TrimOfTrimmed(Trim(s));
  }
}
