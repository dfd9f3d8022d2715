/** The string operations the search filter and the month lookup use:
    `toLowerCase` over ASCII, `includes`, and `Number.prototype.toString`
    for non-negative integers. */
module Text {

  predicate IsUpper(c: char) { 'A' <= c <= 'Z' }

  predicate IsDigit(c: char) { '0' <= c <= '9' }

  predicate AllDigits(s: string) { forall i :: 0 <= i < |s| ==> IsDigit(s[i]) }

  /** `toLowerCase` on one character, ASCII letters only. */
  function LowerChar(c: char): (r: char)
    ensures !IsUpper(r)
    ensures IsDigit(r) <==> IsDigit(c)
    ensures !IsUpper(c) ==> r == c
    ensures IsUpper(c) ==> r as int - c as int == 'a' as int - 'A' as int
  {
    if IsUpper(c) then (c as int - 'A' as int + 'a' as int) as char else c
  }

  /** `String.prototype.toLowerCase`, ASCII letters only. */
  function ToLower(s: string): (r: string)
    ensures |r| == |s|
  {
    if s == [] then [] else [LowerChar(s[0])] + ToLower(s[1..])
  }

  /** Lower-casing a string lower-cases each of its characters in place. */
  lemma {:induction false} ToLowerAt(s: string)
    ensures forall i :: 0 <= i < |s| ==> ToLower(s)[i] == LowerChar(s[i])
  {
    if s != [] {
      ToLowerAt(s[1..]);
      assert forall i :: 1 <= i < |s| ==> ToLower(s)[i] == ToLower(s[1..])[i - 1];
    }
  }

  /** Lower-casing twice is lower-casing once. */
  lemma ToLowerIdempotent(s: string)
    ensures ToLower(ToLower(s)) == ToLower(s)
  {
    ToLowerAt(s);
    ToLowerAt(ToLower(s));
    assert forall i :: 0 <= i < |s| ==> ToLower(ToLower(s))[i] == ToLower(s)[i];
  }

  /** A string with no upper-case letter is its own lower case. */
  lemma ToLowerOfLower(s: string)
    requires forall i :: 0 <= i < |s| ==> !IsUpper(s[i])
    ensures ToLower(s) == s
  {
    ToLowerAt(s);
  }

  /** A string of digits is its own lower case, and only strings of digits
      lower-case to strings of digits. */
  lemma ToLowerDigits(s: string)
    ensures AllDigits(ToLower(s)) <==> AllDigits(s)
    ensures AllDigits(s) ==> ToLower(s) == s
  {
    ToLowerAt(s);
    if AllDigits(s) {
      assert forall i :: 0 <= i < |s| ==> ToLower(s)[i] == s[i];
    }
    if AllDigits(ToLower(s)) {
      forall i | 0 <= i < |s| ensures IsDigit(s[i]) {
        assert IsDigit(ToLower(s)[i]);
      }
    }
  }

  /** `pat` occurs in `text` starting at position `i`. */
  ghost predicate OccursAt(text: string, pat: string, i: int)
  {
    0 <= i && i + |pat| <= |text| && text[i..i + |pat|] == pat
  }

  /** `String.prototype.includes`: does `pat` occur in `text`? */
  function Contains(text: string, pat: string): bool
    decreases |text|
  {
    if |pat| > |text| then false
    else if text[..|pat|] == pat then true
    else Contains(text[1..], pat)
  }

  /** `Contains` holds exactly when some window of `text` equals `pat`. */
  lemma {:induction false} ContainsOccurs(text: string, pat: string)
    ensures Contains(text, pat) <==> exists i :: OccursAt(text, pat, i)
    decreases |text|
  {
    if |pat| > |text| {
    } else if text[..|pat|] == pat {
      assert OccursAt(text, pat, 0);
    } else {
      ContainsOccurs(text[1..], pat);
      if Contains(text[1..], pat) {
        var j :| OccursAt(text[1..], pat, j);
        assert text[1..][j..j + |pat|] == text[j + 1..j + 1 + |pat|];
        assert OccursAt(text, pat, j + 1);
      }
      if exists i :: OccursAt(text, pat, i) {
        var j :| OccursAt(text, pat, j);
        assert j != 0;
        assert text[1..][j - 1..j - 1 + |pat|] == text[j..j + |pat|];
        assert OccursAt(text[1..], pat, j - 1);
      }
    }
  }

  /** The empty string occurs in every string, as `includes("")` is true. */
  lemma ContainsEmpty(text: string)
    ensures Contains(text, "")
  {
    assert OccursAt(text, "", 0);
    ContainsOccurs(text, "");
  }

  /** In a string of digits, searching for `pat` and for its lower case agree. */
  lemma ContainsInDigits(digits: string, pat: string)
    requires AllDigits(digits)
    ensures Contains(digits, pat) == Contains(digits, ToLower(pat))
  {
    ContainsOccurs(digits, pat);
    ContainsOccurs(digits, ToLower(pat));
    ToLowerAt(pat);
    if Contains(digits, pat) {
      var i :| OccursAt(digits, pat, i);
      assert forall k :: 0 <= k < |pat| ==> pat[k] == digits[i + k];
      ToLowerDigits(pat);
    }
    if Contains(digits, ToLower(pat)) {
      var i :| OccursAt(digits, ToLower(pat), i);
      assert forall k :: 0 <= k < |pat| ==> ToLower(pat)[k] == digits[i + k];
      ToLowerDigits(pat);
    }
  }

  function DigitChar(d: nat): (c: char)
    requires d < 10
    ensures IsDigit(c)
  {
    ('0' as int + d) as char
  }

  function DigitValue(c: char): (d: nat)
    requires IsDigit(c)
    ensures d < 10
  {
    c as int - '0' as int
  }

  /** `Number.prototype.toString()` on a non-negative integer: its decimal
      digits, most significant first, with no leading zero. */
  function NatToString(n: nat): (r: string)
    ensures |r| >= 1
    ensures AllDigits(r)
    ensures r[0] == '0' ==> n == 0
    decreases n
  {
    if n < 10 then [DigitChar(n)] else NatToString(n / 10) + [DigitChar(n % 10)]
  }

  /** The number a string of decimal digits denotes (what `Number(s)` gives
      for such a string). */
  function DecimalValue(s: string): nat
    requires AllDigits(s)
  {
    if s == [] then 0 else DecimalValue(s[..|s| - 1]) * 10 + DigitValue(s[|s| - 1])
  }

  /** Reading back the decimal form of `n` gives `n`. */
  lemma {:induction false} DecimalRoundTrip(n: nat)
    ensures DecimalValue(NatToString(n)) == n
    decreases n
  {
    var s := NatToString(n);
    if n >= 10 {
      DecimalRoundTrip(n / 10);
      assert s[..|s| - 1] == NatToString(n / 10);
    }
  }

  /** The decimal form is one-to-one: two numbers with the same form are equal. */
  lemma NatToStringInjective(m: nat, n: nat)
    requires NatToString(m) == NatToString(n)
    ensures m == n
  {
    DecimalRoundTrip(m);
    DecimalRoundTrip(n);
  }

  /** A leading `0` does not change the value of a digit string. */
  lemma {:induction false} DecimalLeadingZero(t: string)
    requires AllDigits(t)
    ensures AllDigits("0" + t) && DecimalValue("0" + t) == DecimalValue(t)
    decreases |t|
  {
    var s := "0" + t;
    assert AllDigits(s) by {
      assert forall i :: 1 <= i < |s| ==> s[i] == t[i - 1];
    }
    if t != [] {
      assert s[..|s| - 1] == "0" + t[..|t| - 1];
      DecimalLeadingZero(t[..|t| - 1]);
    } else {
      assert DecimalValue(s) == DecimalValue(s[..0]) * 10 + 0;
    }
  }
}
