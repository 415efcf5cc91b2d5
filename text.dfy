/** The JavaScript string operations the risk scorer relies on, over `seq<char>`. */
module Text {

  // ---------------------------------------------------------------------------
  // String.prototype.toLowerCase, restricted to ASCII
  // ---------------------------------------------------------------------------

  predicate IsAsciiUpper(c: char) {
    'A' <= c <= 'Z'
  }

  function LowerChar(c: char): char {
    if IsAsciiUpper(c) then (c as int - 'A' as int + 'a' as int) as char else c
  }

  function ToLower(s: string): (r: string)
    ensures |r| == |s|
  {
    seq(|s|, i requires 0 <= i < |s| => LowerChar(s[i]))
  }

  /** Lower-casing keeps the length, leaves no ASCII capital, turns each capital into its own small letter and leaves every other character alone. */
  lemma ToLowerSpec(s: string)
    ensures |ToLower(s)| == |s|
    ensures forall i :: 0 <= i < |s| ==> !IsAsciiUpper(ToLower(s)[i])
    ensures forall i :: 0 <= i < |s| && !IsAsciiUpper(s[i]) ==> ToLower(s)[i] == s[i]
    ensures forall i :: 0 <= i < |s| && IsAsciiUpper(s[i]) ==>
              'a' <= ToLower(s)[i] <= 'z' && ToLower(s)[i] as int - 'a' as int == s[i] as int - 'A' as int
  {
  }

  /** Lower-casing twice is lower-casing once. */
  lemma ToLowerIdempotent(s: string)
    ensures ToLower(ToLower(s)) == ToLower(s)
  {
    ToLowerSpec(s);
    ToLowerSpec(ToLower(s));
  }

  // ---------------------------------------------------------------------------
  // String.prototype.includes
  // ---------------------------------------------------------------------------

  /** `needle` occurs in `haystack` starting at index `i`. */
  predicate OccursAt(haystack: string, needle: string, i: nat) {
    i + |needle| <= |haystack| && haystack[i..i + |needle|] == needle
  }

  /** Scans the start positions of `haystack` from left to right. */
  function Includes(haystack: string, needle: string): bool
    decreases |haystack|
  {
    if needle <= haystack then true
    else if haystack == [] then false
    else Includes(haystack[1..], needle)
  }

  /** `Includes` is contiguous-substring search: it holds exactly when `needle` occurs somewhere. */
  lemma {:induction false} IncludesIffOccurs(haystack: string, needle: string)
    ensures Includes(haystack, needle) <==> exists i: nat :: OccursAt(haystack, needle, i)
    decreases |haystack|
  {
    if needle <= haystack {
      assert OccursAt(haystack, needle, 0);
    } else if haystack == [] {
      assert forall i: nat :: !OccursAt(haystack, needle, i);
    } else {
      var tail := haystack[1..];
      IncludesIffOccurs(tail, needle);
      forall i: nat ensures OccursAt(tail, needle, i) <==> OccursAt(haystack, needle, i + 1) {
        if i + |needle| <= |tail| {
          assert tail[i..i + |needle|] == haystack[i + 1..i + 1 + |needle|];
        }
      }
      assert !OccursAt(haystack, needle, 0);
      if exists i: nat :: OccursAt(haystack, needle, i) {
        var i: nat :| OccursAt(haystack, needle, i);
        assert i > 0;
        assert OccursAt(tail, needle, i - 1);
      }
    }
  }

  /** A needle whose first character never appears in the haystack is not included in it. */
  lemma {:induction false} NotIncludedWithoutFirst(haystack: string, needle: string)
    requires needle != [] && needle[0] !in haystack
    ensures !Includes(haystack, needle)
    decreases |haystack|
  {
    if haystack != [] {
      assert haystack[0] in haystack;
      assert forall c :: c in haystack[1..] ==> c in haystack;
      NotIncludedWithoutFirst(haystack[1..], needle);
    }
  }

  /** A needle longer than the haystack is not included in it. */
  lemma {:induction false} NotIncludedWhenLonger(haystack: string, needle: string)
    requires |needle| > |haystack|
    ensures !Includes(haystack, needle)
    decreases |haystack|
  {
    if haystack != [] {
      NotIncludedWhenLonger(haystack[1..], needle);
    }
  }

  /** Array.prototype.some over a keyword list, each tested with `includes`. */
  function IncludesAny(text: string, keywords: seq<string>): bool {
    exists k | k in keywords :: Includes(text, k)
  }

  // ---------------------------------------------------------------------------
  // String.prototype.trim
  // ---------------------------------------------------------------------------

  /** The ECMAScript WhiteSpace and LineTerminator code points, which `trim` removes. */
  predicate IsJsWhitespace(c: char) {
    c == '\t' || c == '\n' || c == '\U{B}' || c == '\U{C}' || c == '\r' || c == ' '
    || c == '\U{A0}' || c == '\U{1680}' || ('\U{2000}' <= c <= '\U{200A}')
    || c == '\U{2028}' || c == '\U{2029}' || c == '\U{202F}' || c == '\U{205F}'
    || c == '\U{3000}' || c == '\U{FEFF}'
  }

  function TrimStart(s: string): string {
    if s != [] && IsJsWhitespace(s[0]) then TrimStart(s[1..]) else s
  }

  function TrimEnd(s: string): string {
    if s != [] && IsJsWhitespace(s[|s| - 1]) then TrimEnd(s[..|s| - 1]) else s
  }

  /** `TrimStart` drops the leading whitespace: it keeps a suffix of `s` that does not start with whitespace. */
  lemma {:induction false} TrimStartSpec(s: string)
    ensures var r := TrimStart(s);
            |r| <= |s| && r == s[|s| - |r|..]
            && (r == [] || !IsJsWhitespace(r[0]))
            && forall i :: 0 <= i < |s| - |r| ==> IsJsWhitespace(s[i])
  {
    if s != [] && IsJsWhitespace(s[0]) {
      var r := TrimStart(s[1..]);
      TrimStartSpec(s[1..]);
      assert TrimStart(s) == r;
      assert s[1..][|s| - 1 - |r|..] == s[|s| - |r|..];
      forall i | 0 <= i < |s| - |r| ensures IsJsWhitespace(s[i]) {
        if i > 0 {
          assert s[i] == s[1..][i - 1];
        }
      }
    }
  }

  /** `TrimEnd` drops the trailing whitespace: it keeps a prefix of `s` that does not end with whitespace. */
  lemma {:induction false} TrimEndSpec(s: string)
    ensures var r := TrimEnd(s);
            |r| <= |s| && r == s[..|r|]
            && (r == [] || !IsJsWhitespace(r[|r| - 1]))
            && forall i :: |r| <= i < |s| ==> IsJsWhitespace(s[i])
  {
    if s != [] && IsJsWhitespace(s[|s| - 1]) {
      var r := TrimEnd(s[..|s| - 1]);
      TrimEndSpec(s[..|s| - 1]);
      assert TrimEnd(s) == r;
      assert s[..|s| - 1][..|r|] == s[..|r|];
      forall i | |r| <= i < |s| ensures IsJsWhitespace(s[i]) {
        if i < |s| - 1 {
          assert s[i] == s[..|s| - 1][i];
        }
      }
    }
  }

  function Trim(s: string): string {
    TrimEnd(TrimStart(s))
  }

  /** `s.trim().length > 0` exactly when `s` holds a character that is not whitespace. */
  lemma TrimNonEmptyIff(s: string)
    ensures |Trim(s)| > 0 <==> exists i :: 0 <= i < |s| && !IsJsWhitespace(s[i])
  {
    var front := TrimStart(s);
    var both := TrimEnd(front);
    TrimStartSpec(s);
    TrimEndSpec(front);
    if exists i :: 0 <= i < |s| && !IsJsWhitespace(s[i]) {
      var i :| 0 <= i < |s| && !IsJsWhitespace(s[i]);
      var j := i - (|s| - |front|);
      assert 0 <= j < |front| && front[j] == s[i];
      assert |both| > 0;
    } else {
      assert front == [];
    }
  }

  // ---------------------------------------------------------------------------
  // Decimal rendering of a non-negative integer, as a template literal does
  // ---------------------------------------------------------------------------

  predicate IsDigit(c: char) {
    '0' <= c <= '9'
  }

  predicate AllDigits(s: string) {
    forall i :: 0 <= i < |s| ==> IsDigit(s[i])
  }

  function DigitChar(d: nat): (c: char)
    requires d < 10
    ensures IsDigit(c) && c as int - '0' as int == d
  {
    ('0' as int + d) as char
  }

  /** The shortest decimal numeral of `n`: digits only, no leading zero unless `n` is 0. */
  function NatToDecimal(n: nat): (r: string)
    ensures |r| > 0 && AllDigits(r)
    ensures r[0] == '0' ==> n == 0
    ensures n < 10 ==> |r| == 1
  {
    if n < 10 then [DigitChar(n)] else NatToDecimal(n / 10) + [DigitChar(n % 10)]
  }

  /** The value of a numeral, most significant digit first. */
  function DecimalValue(s: string): nat
    requires AllDigits(s)
  {
    if s == [] then 0 else DecimalValue(s[..|s| - 1]) * 10 + (s[|s| - 1] as int - '0' as int)
  }

  lemma {:induction false} DecimalRoundTrip(n: nat)
    ensures DecimalValue(NatToDecimal(n)) == n
  {
    if n >= 10 {
      DecimalRoundTrip(n / 10);
      var r := NatToDecimal(n);
      assert r[..|r| - 1] == NatToDecimal(n / 10);
    }
  }

  /** The longest prefix of `s` made of digits. */
  function DigitPrefix(s: string): (r: string)
    ensures AllDigits(r) && r <= s
  {
    if s != [] && IsDigit(s[0]) then [s[0]] + DigitPrefix(s[1..]) else []
  }

  lemma {:induction false} DigitPrefixOfNumeral(digits: string, rest: string)
    requires AllDigits(digits)
    requires rest == [] || !IsDigit(rest[0])
    ensures DigitPrefix(digits + rest) == digits
  {
    if digits != [] {
      assert (digits + rest)[1..] == digits[1..] + rest;
      DigitPrefixOfNumeral(digits[1..], rest);
    } else {
      assert digits + rest == rest;
    }
  }

}
