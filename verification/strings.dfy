/**
 String operations the server relies on: Python's substring test `needle in haystack`,
 ASCII case mapping for `str.lower`/`str.upper`, `sep.join(items)`, and the decimal
 and thousands-grouped (`f"{n:,}"`) rendering of non-negative integers.
 */
module Strings {

  /** `needle` occurs in `haystack` starting at index `i`. */
  predicate OccursAt(haystack: string, needle: string, i: int) {
    0 <= i && i + |needle| <= |haystack| && haystack[i..i + |needle|] == needle
  }

  /** Declarative reading of Python's `needle in haystack`: some start index matches. */
  ghost predicate Occurs(haystack: string, needle: string) {
    exists i :: OccursAt(haystack, needle, i)
  }

  predicate IsPrefix(prefix: string, s: string) {
    |prefix| <= |s| && s[..|prefix|] == prefix
  }

  predicate EndsWith(s: string, suffix: string) {
    |suffix| <= |s| && s[|s| - |suffix|..] == suffix
  }

  /** Substring search, scanning start positions from left to right. */
  predicate Contains(haystack: string, needle: string)
    decreases |haystack|
  {
    IsPrefix(needle, haystack) || (|haystack| > 0 && Contains(haystack[1..], needle))
  }

  /** The scanning search agrees with the declarative definition, in both directions. */
  lemma {:induction false} ContainsIffOccurs(haystack: string, needle: string)
    ensures Contains(haystack, needle) <==> Occurs(haystack, needle)
    decreases |haystack|
  {
    if Contains(haystack, needle) {
      if IsPrefix(needle, haystack) {
        assert OccursAt(haystack, needle, 0);
      } else {
        ContainsIffOccurs(haystack[1..], needle);
        var i :| OccursAt(haystack[1..], needle, i);
        assert haystack[1..][i..i + |needle|] == haystack[i + 1..i + 1 + |needle|];
        assert OccursAt(haystack, needle, i + 1);
      }
    }
    if Occurs(haystack, needle) {
      var i :| OccursAt(haystack, needle, i);
      if i == 0 {
        assert IsPrefix(needle, haystack);
      } else {
        assert haystack[1..][i - 1..i - 1 + |needle|] == haystack[i..i + |needle|];
        assert OccursAt(haystack[1..], needle, i - 1);
        ContainsIffOccurs(haystack[1..], needle);
      }
    }
  }

  /** A witness position proves containment. */
  lemma OccursAtContains(haystack: string, needle: string, i: int)
    requires OccursAt(haystack, needle, i)
    ensures Contains(haystack, needle)
  {
    ContainsIffOccurs(haystack, needle);
  }

  /** A needle with a character the haystack lacks is not contained in it. */
  lemma AbsentCharExcludes(haystack: string, needle: string, c: char)
    requires c in needle && c !in haystack
    ensures !Contains(haystack, needle)
  {
    ContainsIffOccurs(haystack, needle);
  }

  /** A piece spliced between two strings is contained in the result. */
  lemma SplicedContains(head: string, piece: string, tail: string)
    ensures Contains(head + piece + tail, piece)
  {
    var s := head + piece + tail;
    assert s[|head|..|head| + |piece|] == piece;
    OccursAtContains(s, piece, |head|);
  }

  /** Containment is transitive. */
  lemma ContainsTransitive(haystack: string, middle: string, needle: string)
    requires Contains(haystack, middle) && Contains(middle, needle)
    ensures Contains(haystack, needle)
  {
    ContainsIffOccurs(haystack, middle);
    ContainsIffOccurs(middle, needle);
    var i :| OccursAt(haystack, middle, i);
    var j :| OccursAt(middle, needle, j);
    assert forall k :: 0 <= k < |needle| ==> haystack[i + j + k] == middle[j + k] == needle[k];
    assert haystack[i + j..i + j + |needle|] == needle;
    OccursAtContains(haystack, needle, i + j);
  }

  lemma PrefixContained(prefix: string, s: string)
    requires IsPrefix(prefix, s)
    ensures Contains(s, prefix)
  {
    OccursAtContains(s, prefix, 0);
  }

  lemma SuffixContained(s: string, suffix: string)
    requires EndsWith(s, suffix)
    ensures Contains(s, suffix)
  {
    OccursAtContains(s, suffix, |s| - |suffix|);
  }

  lemma SuffixEndsWith(s: string, suffix: string)
    ensures EndsWith(s + suffix, suffix)
  {
    assert (s + suffix)[|s|..] == suffix;
  }

  /** A needle longer than the haystack is never contained in it. */
  lemma LongerNeverContained(haystack: string, needle: string)
    requires |needle| > |haystack|
    ensures !Contains(haystack, needle)
  {
    ContainsIffOccurs(haystack, needle);
  }

  // ---------------------------------------------------------------------------
  // Case mapping. Python maps every cased Unicode letter; this model maps the
  // ASCII letters only and leaves every other character unchanged.

  function LowerChar(c: char): char {
    if 'A' <= c <= 'Z' then (c as int - 'A' as int + 'a' as int) as char else c
  }

  function UpperChar(c: char): char {
    if 'a' <= c <= 'z' then (c as int - 'a' as int + 'A' as int) as char else c
  }

  function Lower(s: string): (r: string)
    ensures |r| == |s|
    ensures forall i :: 0 <= i < |s| ==> r[i] == LowerChar(s[i])
  {
    seq(|s|, i requires 0 <= i < |s| => LowerChar(s[i]))
  }

  function Upper(s: string): (r: string)
    ensures |r| == |s|
    ensures forall i :: 0 <= i < |s| ==> r[i] == UpperChar(s[i])
  {
    seq(|s|, i requires 0 <= i < |s| => UpperChar(s[i]))
  }

  lemma LowerAppend(a: string, b: string)
    ensures Lower(a + b) == Lower(a) + Lower(b)
  {
  }

  /** Lower-casing twice changes nothing more, and upper-casing likewise. */
  lemma CaseMappingIdempotent(s: string)
    ensures Lower(Lower(s)) == Lower(s)
    ensures Upper(Upper(s)) == Upper(s)
  {
  }

  // ---------------------------------------------------------------------------
  // `sep.join(items)`

  function Join(items: seq<string>, sep: string): string
    decreases |items|
  {
    if |items| == 0 then ""
    else if |items| == 1 then items[0]
    else items[0] + sep + Join(items[1..], sep)
  }

  /** Every joined item appears in the joined string. */
  lemma {:induction false} JoinContainsItems(items: seq<string>, sep: string, k: nat)
    requires k < |items|
    ensures Contains(Join(items, sep), items[k])
    decreases |items|
  {
    var j := Join(items, sep);
    if k == 0 {
      OccursAtContains(j, items[0], 0);
    } else {
      var rest := Join(items[1..], sep);
      JoinContainsItems(items[1..], sep, k - 1);
      ContainsIffOccurs(rest, items[k]);
      var i :| OccursAt(rest, items[k], i);
      var off := |items[0] + sep|;
      assert j == items[0] + sep + rest;
      assert j[off + i..off + i + |items[k]|] == rest[i..i + |items[k]|];
      OccursAtContains(j, items[k], off + i);
    }
  }

  // ---------------------------------------------------------------------------
  // Decimal rendering of non-negative integers: `str(n)` and `f"{n:,}"`.

  predicate IsDigit(c: char) {
    '0' <= c <= '9'
  }

  predicate AllDigits(s: string) {
    forall i :: 0 <= i < |s| ==> IsDigit(s[i])
  }

  function DigitChar(d: nat): (c: char)
    requires d < 10
    ensures IsDigit(c)
  {
    ('0' as int + d) as char
  }

  function DigitValue(c: char): nat
    requires IsDigit(c)
  {
    c as int - '0' as int
  }

  /** The value a digit string denotes. */
  function DigitsValue(s: string): nat
    requires AllDigits(s)
    decreases |s|
  {
    if |s| == 0 then 0 else DigitsValue(s[..|s| - 1]) * 10 + DigitValue(s[|s| - 1])
  }

  /** `str(n)` for a non-negative integer. */
  function DecimalString(n: nat): (s: string)
    ensures 1 <= |s| && AllDigits(s)
    ensures |s| > 1 ==> s[0] != '0'
    decreases n
  {
    if n < 10 then [DigitChar(n)] else DecimalString(n / 10) + [DigitChar(n % 10)]
  }

  /** Reading the decimal rendering back gives the number: the rendering loses nothing. */
  lemma {:induction false} DecimalStringRoundTrip(n: nat)
    ensures DigitsValue(DecimalString(n)) == n
    decreases n
  {
    if n >= 10 {
      DecimalStringRoundTrip(n / 10);
      var s := DecimalString(n);
      assert s[..|s| - 1] == DecimalString(n / 10);
    }
  }

  /** Python's `,` grouping: a comma before every full group of three digits from the right. */
  function GroupDigits(digits: string): string
    decreases |digits|
  {
    if |digits| <= 3 then digits
    else GroupDigits(digits[..|digits| - 3]) + "," + digits[|digits| - 3..]
  }

  /** `f"{n:,}"` for a non-negative integer. */
  function GroupedDecimal(n: nat): string {
    GroupDigits(DecimalString(n))
  }

  function StripCommas(s: string): string
    decreases |s|
  {
    if |s| == 0 then "" else (if s[0] == ',' then "" else [s[0]]) + StripCommas(s[1..])
  }

  lemma {:induction false} StripCommasAppend(a: string, b: string)
    ensures StripCommas(a + b) == StripCommas(a) + StripCommas(b)
    decreases |a|
  {
    if |a| > 0 {
      assert (a + b)[1..] == a[1..] + b;
      StripCommasAppend(a[1..], b);
    } else {
      assert a + b == b;
    }
  }

  lemma {:induction false} StripCommasOfDigits(s: string)
    requires AllDigits(s)
    ensures StripCommas(s) == s
    decreases |s|
  {
    if |s| > 0 {
      StripCommasOfDigits(s[1..]);
    }
  }

  /** Grouping only inserts commas: removing them gives back the digit string. */
  lemma {:induction false} GroupDigitsOnlyAddsCommas(digits: string)
    requires AllDigits(digits)
    ensures StripCommas(GroupDigits(digits)) == digits
    decreases |digits|
  {
    if |digits| <= 3 {
      StripCommasOfDigits(digits);
    } else {
      var head := digits[..|digits| - 3];
      var tail := digits[|digits| - 3..];
      GroupDigitsOnlyAddsCommas(head);
      StripCommasAppend(GroupDigits(head) + ",", tail);
      StripCommasAppend(GroupDigits(head), ",");
      StripCommasOfDigits(tail);
      assert head + tail == digits;
    }
  }

  /** The grouped rendering denotes `n` once its separators are dropped. */
  lemma GroupedDecimalDenotes(n: nat)
    ensures StripCommas(GroupedDecimal(n)) == DecimalString(n)
    ensures DigitsValue(StripCommas(GroupedDecimal(n))) == n
  {
    GroupDigitsOnlyAddsCommas(DecimalString(n));
    DecimalStringRoundTrip(n);
  }
}
