/** The JavaScript string and number conversions the front end relies on,
    over `string` (a sequence of UTF-16 code units, written `seq<char>`). */
module Text {

  predicate IsDigit(c: char) { '0' <= c <= '9' }

  predicate AllDigits(s: string) { forall i :: 0 <= i < |s| ==> IsDigit(s[i]) }

  /** The regular expression /^\d+$/ (\d is the ASCII digits without the u flag). */
  predicate IsDigits(s: string) { |s| > 0 && AllDigits(s) }

  function DigitValue(c: char): (d: nat)
    requires IsDigit(c)
    ensures d < 10
  {
    (c as int) - ('0' as int)
  }

  function DigitChar(d: nat): (c: char)
    requires d < 10
    ensures IsDigit(c) && DigitValue(c) == d
  {
    ('0' as int + d) as char
  }

  /** The value of a run of decimal digits, most significant first. */
  function DigitsValue(s: string): nat
    requires AllDigits(s)
  {
    if s == [] then 0 else DigitsValue(s[..|s| - 1]) * 10 + DigitValue(s[|s| - 1])
  }

  /** `String(n)` for a non-negative integer: its decimal digits, no leading zero. */
  function NatToString(n: nat): (s: string)
    ensures IsDigits(s)
    ensures s[0] == '0' ==> n == 0
  {
    if n < 10 then [DigitChar(n)] else NatToString(n / 10) + [DigitChar(n % 10)]
  }

  /** `String(n)` / `n.toString()` for an integer. */
  function IntToString(n: int): (s: string)
    ensures |s| > 0
  {
    if n < 0 then "-" + NatToString(-n) else NatToString(n)
  }

  lemma {:induction false} NatToStringRoundTrip(n: nat)
    ensures DigitsValue(NatToString(n)) == n
  {
    if n >= 10 {
      var s := NatToString(n / 10);
      NatToStringRoundTrip(n / 10);
      assert (s + [DigitChar(n % 10)])[..|s|] == s;
    }
  }

  /** The numeric result of JavaScript's `parseInt` and of comparisons on it:
      an integer or NaN. */
  datatype Num = Int(value: int) | NaN

  /** `a > b` on two numbers: false whenever either side is NaN. */
  predicate Gt(a: Num, b: Num) { a.Int? && b.Int? && a.value > b.value }

  /** The longest prefix of `s` made of digits. */
  function LeadingDigits(s: string): (d: string)
    ensures d <= s && AllDigits(d)
    ensures |d| < |s| ==> !IsDigit(s[|d|])
  {
    if s == [] || !IsDigit(s[0]) then [] else [s[0]] + LeadingDigits(s[1..])
  }

  lemma {:induction false} LeadingDigitsOfDigits(s: string)
    requires AllDigits(s)
    ensures LeadingDigits(s) == s
  {
    if s != [] { LeadingDigitsOfDigits(s[1..]); }
  }

  /** `parseInt(s)` in base 10: an optional sign, then the longest run of
      leading digits; NaN when there is no digit there. */
  function ParseInt(s: string): (r: Num)
    ensures r.Int? ==> exists k :: 0 <= k < |s| && IsDigit(s[k])
  {
    var negative := |s| > 0 && s[0] == '-';
    var rest := if |s| > 0 && (s[0] == '-' || s[0] == '+') then s[1..] else s;
    var d := LeadingDigits(rest);
    if d == [] then NaN
    else
      assert IsDigit(s[|s| - |rest|]);
      Int(if negative then -(DigitsValue(d) as int) else DigitsValue(d))
  }

  /** parseInt of a one-digit text is that digit. */
  lemma ParseIntOneDigit(c: char)
    requires IsDigit(c)
    ensures ParseInt([c]) == Int(DigitValue(c))
  {
    assert LeadingDigits([c][1..]) == [];
    assert DigitsValue([c]) == DigitsValue([]) * 10 + DigitValue(c);
  }

  /** parseInt undoes toString on every integer. */
  lemma {:induction false} ParseIntOfIntToString(n: int)
    ensures ParseInt(IntToString(n)) == Int(n)
  {
    var digits := NatToString(if n < 0 then -n else n);
    LeadingDigitsOfDigits(digits);
    NatToStringRoundTrip(if n < 0 then -n else n);
    if n < 0 {
      assert ("-" + digits)[1..] == digits;
    } else {
      assert digits[0] != '-' && digits[0] != '+';
    }
  }

  /** toString is one-to-one, so comparing `String(a) == String(b)` compares `a == b`. */
  lemma IntToStringInjective(a: int, b: int)
    ensures IntToString(a) == IntToString(b) <==> a == b
  {
    if IntToString(a) == IntToString(b) {
      ParseIntOfIntToString(a);
      ParseIntOfIntToString(b);
    }
  }

  /** `Number(s)` where it matters here: "" is 0 and a plain, optionally
      negative, digit string is its integer; any other text (decimals,
      exponents, surrounding blanks, garbage) is kept as written. */
  datatype Numeric = Integer(value: int) | Unparsed(text: string)

  function ToNumber(s: string): (r: Numeric)
    ensures r.Unparsed? ==> r.text == s && s != ""
  {
    if s == "" then Integer(0)
    else if IsDigits(s) then Integer(DigitsValue(s))
    else if s[0] == '-' && IsDigits(s[1..]) then Integer(-(DigitsValue(s[1..]) as int))
    else Unparsed(s)
  }

  /** Number undoes toString on every integer. */
  lemma {:induction false} ToNumberOfIntToString(n: int)
    ensures ToNumber(IntToString(n)) == Integer(n)
  {
    NatToStringRoundTrip(if n < 0 then -n else n);
    if n < 0 {
      assert IntToString(n)[1..] == NatToString(-n);
      assert !IsDigit(IntToString(n)[0]);
    }
  }

  /** `toLowerCase` on ASCII letters; every other code unit is kept. */
  function LowerChar(c: char): (l: char)
    ensures !('A' <= l <= 'Z')
    ensures !('A' <= c <= 'Z') ==> l == c
  {
    if 'A' <= c <= 'Z' then (c as int + 32) as char else c
  }

  function ToLower(s: string): (l: string)
    ensures |l| == |s|
    ensures forall i :: 0 <= i < |s| ==> l[i] == LowerChar(s[i])
  {
    if s == [] then [] else [LowerChar(s[0])] + ToLower(s[1..])
  }

  /** Lower-casing twice changes nothing more. */
  lemma ToLowerIdempotent(s: string)
    ensures ToLower(ToLower(s)) == ToLower(s)
  {
    assert forall i :: 0 <= i < |s| ==> LowerChar(LowerChar(s[i])) == LowerChar(s[i]);
  }

  /** `haystack.includes(needle)`: the needle occurs at some position. */
  predicate Contains(haystack: string, needle: string)
  {
    needle <= haystack || (haystack != [] && Contains(haystack[1..], needle))
  }

  /** The needle sits in the haystack starting at position i. */
  predicate OccursAt(haystack: string, needle: string, i: int)
  {
    0 <= i <= |haystack| - |needle| && needle == haystack[i..i + |needle|]
  }

  /** An occurrence in the tail is an occurrence one position further on. */
  lemma OccursInTail(haystack: string, needle: string, j: int)
    requires haystack != [] && 0 <= j
    ensures OccursAt(haystack[1..], needle, j) <==> OccursAt(haystack, needle, j + 1)
  {
    if 0 <= j <= |haystack| - 1 - |needle| {
      assert haystack[1..][j..j + |needle|] == haystack[j + 1..j + 1 + |needle|];
    }
  }

  /** Contains agrees with the direct definition of an occurrence. */
  lemma {:induction false} ContainsAt(haystack: string, needle: string)
    ensures Contains(haystack, needle) <==> exists i :: OccursAt(haystack, needle, i)
  {
    if needle <= haystack {
      assert OccursAt(haystack, needle, 0);
    }
    if haystack != [] {
      ContainsAt(haystack[1..], needle);
      if Contains(haystack[1..], needle) {
        var j :| OccursAt(haystack[1..], needle, j);
        OccursInTail(haystack, needle, j);
      }
      if exists i :: OccursAt(haystack, needle, i) {
        var i :| OccursAt(haystack, needle, i);
        if i > 0 {
          OccursInTail(haystack, needle, i - 1);
        } else {
          assert needle <= haystack;
        }
      }
    } else {
      if exists i :: OccursAt(haystack, needle, i) {
        var i :| OccursAt(haystack, needle, i);
        assert needle == [];
      }
    }
  }

  /** The search used by every list page: `a.toLowerCase().includes(b.toLowerCase())`. */
  predicate ContainsIgnoreCase(haystack: string, needle: string)
  {
    Contains(ToLower(haystack), ToLower(needle))
  }

  lemma EmptyNeedleMatches(haystack: string)
    ensures ContainsIgnoreCase(haystack, "")
  {
  }

  /** Only the empty needle is found in the empty text. */
  lemma EmptyHaystack(needle: string)
    ensures ContainsIgnoreCase("", needle) <==> needle == ""
  {
  }

  /** Only the lower-case form of the search term matters. */
  lemma SearchIgnoresTermCase(haystack: string, needle: string)
    ensures ContainsIgnoreCase(haystack, needle) <==> ContainsIgnoreCase(haystack, ToLower(needle))
  {
    ToLowerIdempotent(needle);
  }
}
