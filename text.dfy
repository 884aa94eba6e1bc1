/** String helpers standing in for the JavaScript built-ins the source uses:
    `trim`, template-literal number formatting, `startsWith`, `endsWith` and
    `replace` with a plain-string pattern. */
module Text {

  /** The characters `String.prototype.trim` removes, restricted to the ASCII
      white-space controls, the space, the no-break space, the line and
      paragraph separators and the byte-order mark. */
  predicate IsWhitespace(c: char) {
    c == ' ' || c == '\t' || c == '\n' || c == '\U{B}' || c == '\U{C}' || c == '\r' ||
    c == '\U{A0}' || c == '\U{2028}' || c == '\U{2029}' || c == '\U{FEFF}'
  }

  predicate AllWhitespace(s: string) {
    forall i :: 0 <= i < |s| ==> IsWhitespace(s[i])
  }

  /** How many white-space characters `s` starts with. */
  function LeadingWhitespace(s: string): (k: nat)
    ensures k <= |s| && (k == |s| || !IsWhitespace(s[k]))
    ensures forall i :: 0 <= i < k ==> IsWhitespace(s[i])
  {
    if s != [] && IsWhitespace(s[0]) then
      var k := 1 + LeadingWhitespace(s[1..]);
      assert forall i :: 1 <= i < k ==> s[i] == s[1..][i - 1];
      k
    else 0
  }

  /** Where the white space that `s` ends with begins. */
  function TrailingWhitespaceStart(s: string): (k: nat)
    ensures k <= |s| && (k == 0 || !IsWhitespace(s[k - 1]))
    ensures forall i :: k <= i < |s| ==> IsWhitespace(s[i])
  {
    if s != [] && IsWhitespace(s[|s| - 1]) then TrailingWhitespaceStart(s[..|s| - 1]) else |s|
  }

  /** `s` without its leading white space. */
  function TrimStart(s: string): (r: string)
    ensures exists k :: 0 <= k <= |s| && r == s[k..] && AllWhitespace(s[..k])
    ensures r == [] || !IsWhitespace(r[0])
  {
    var k := LeadingWhitespace(s);
    assert AllWhitespace(s[..k]);
    s[k..]
  }

  /** `s` without its trailing white space. */
  function TrimEnd(s: string): (r: string)
    ensures exists k :: 0 <= k <= |s| && r == s[..k] && AllWhitespace(s[k..])
    ensures r == [] || !IsWhitespace(r[|r| - 1])
  {
    var k := TrailingWhitespaceStart(s);
    assert AllWhitespace(s[k..]) by {
      assert forall i :: 0 <= i < |s| - k ==> s[k..][i] == s[k + i];
    }
    s[..k]
  }

  /** JavaScript's `s.trim()`. */
  function Trim(s: string): string {
    TrimEnd(TrimStart(s))
  }

  /** The source's `!s.trim()`, read character by character: every character
      is white space. `TrimIsEmptyIffBlank` ties it to `Trim`. */
  predicate IsBlank(s: string) {
    s == [] || (IsWhitespace(s[0]) && IsBlank(s[1..]))
  }

  lemma {:induction false} TrimStartIsEmptyIffBlank(s: string)
    ensures TrimStart(s) == [] <==> IsBlank(s)
  {
    if s != [] && IsWhitespace(s[0]) {
      TrimStartIsEmptyIffBlank(s[1..]);
      assert TrimStart(s) == TrimStart(s[1..]);
    }
  }

  /** Trimming leaves nothing exactly when the string is blank. */
  lemma TrimIsEmptyIffBlank(s: string)
    ensures Trim(s) == [] <==> IsBlank(s)
  {
    TrimStartIsEmptyIffBlank(s);
    var t := TrimStart(s);
    var m :| 0 <= m <= |t| && TrimEnd(t) == t[..m] && AllWhitespace(t[m..]);
    if t != [] && m == 0 {
      assert t[m..][0] == t[0];
    }
  }

  predicate IsDigit(c: char) {
    '0' <= c <= '9'
  }

  function DigitChar(d: nat): (c: char)
    requires d < 10
    ensures IsDigit(c)
  {
    (d + 48) as char
  }

  function DigitValue(c: char): nat
    requires IsDigit(c)
  {
    c as int - 48
  }

  /** Decimal notation of `n`, as a template literal `${n}` writes it. */
  function NatToString(n: nat): (r: string)
    ensures |r| >= 1
    ensures forall i :: 0 <= i < |r| ==> IsDigit(r[i])
  {
    if n < 10 then [DigitChar(n)] else NatToString(n / 10) + [DigitChar(n % 10)]
  }

  /** Reads a string of decimal digits back as a number. */
  function ParseNat(s: string): nat
    requires forall i :: 0 <= i < |s| ==> IsDigit(s[i])
  {
    if s == [] then 0 else ParseNat(s[..|s| - 1]) * 10 + DigitValue(s[|s| - 1])
  }

  /** Reading back the decimal notation of `n` gives `n`. */
  lemma {:induction false} ParseNatToString(n: nat)
    ensures ParseNat(NatToString(n)) == n
  {
    if n >= 10 {
      var r := NatToString(n);
      assert r[..|r| - 1] == NatToString(n / 10);
      ParseNatToString(n / 10);
    }
  }

  /** Distinct numbers have distinct decimal notations. */
  lemma NatToStringInjective(m: nat, n: nat)
    requires NatToString(m) == NatToString(n)
    ensures m == n
  {
    ParseNatToString(m);
    ParseNatToString(n);
  }

  predicate StartsWith(s: string, prefix: string) {
    |prefix| <= |s| && s[..|prefix|] == prefix
  }

  predicate EndsWith(s: string, suffix: string) {
    |suffix| <= |s| && s[|s| - |suffix|..] == suffix
  }

  /** JavaScript's `s.replace(pattern, '')` with a string pattern: the first
      occurrence of `pattern` is deleted. */
  function RemoveFirst(s: string, pattern: string): (r: string)
    ensures StartsWith(s, pattern) ==> r == s[|pattern|..]
    decreases |s|
  {
    if StartsWith(s, pattern) then s[|pattern|..]
    else if s == [] then s
    else [s[0]] + RemoveFirst(s[1..], pattern)
  }

  /** JavaScript's `parts.join(sep)`. */
  function Join(parts: seq<string>, sep: string): string
    decreases |parts|
  {
    if |parts| == 0 then ""
    else if |parts| == 1 then parts[0]
    else parts[0] + sep + Join(parts[1..], sep)
  }

  /** A concatenation starts with its first part and ends with its last. */
  lemma ConcatEnds(head: string, body: string, tail: string)
    ensures StartsWith(head + body + tail, head)
    ensures EndsWith(head + body + tail, tail)
  {
    var r := head + body + tail;
    assert r[..|head|] == head;
    assert r[|r| - |tail|..] == tail;
  }
}
