/** The two pieces of Python string handling the views and serializers use:
    `str.capitalize` (restricted to ASCII letters) for the shopping-list
    names, and the decimal form of an integer, both as written by an
    f-string and as read back by `int(...)`. */
module Text {
  import opened Common

  predicate IsUpper(c: char) { 'A' <= c <= 'Z' }

  predicate IsLower(c: char) { 'a' <= c <= 'z' }

  predicate IsDigit(c: char) { '0' <= c <= '9' }

  function ToUpper(c: char): (u: char)
    ensures IsLower(c) ==> IsUpper(u) && u as int == c as int - 32
    ensures !IsLower(c) ==> u == c
    ensures !IsLower(u)
  {
    if IsLower(c) then (c as int - 32) as char else c
  }

  function ToLower(c: char): (l: char)
    ensures IsUpper(c) ==> IsLower(l) && l as int == c as int + 32
    ensures !IsUpper(c) ==> l == c
    ensures !IsUpper(l)
  {
    if IsUpper(c) then (c as int + 32) as char else c
  }

  /** `s.lower()` over ASCII. */
  function Lower(s: string): (r: string)
    ensures |r| == |s|
    ensures forall i :: 0 <= i < |s| ==> r[i] == ToLower(s[i])
  {
    if s == [] then [] else [ToLower(s[0])] + Lower(s[1..])
  }

  /** `s.capitalize()` over ASCII: the first character upper-cased and every
      other character lower-cased. */
  function Capitalize(s: string): (r: string)
    ensures |r| == |s|
    ensures s != [] ==> r[0] == ToUpper(s[0]) && !IsLower(r[0])
    ensures forall i :: 1 <= i < |r| ==> !IsUpper(r[i]) && r[i] == ToLower(s[i])
  {
    if s == [] then [] else [ToUpper(s[0])] + Lower(s[1..])
  }

  /** Capitalizing changes letter case only: both strings lower-case to the
      same text. */
  lemma CapitalizeKeepsLetters(s: string)
    ensures Lower(Capitalize(s)) == Lower(s)
  {
    if s != [] {
      var c := Capitalize(s);
      assert ToLower(ToUpper(s[0])) == ToLower(s[0]);
      forall i | 0 <= i < |s| ensures Lower(c)[i] == Lower(s)[i] {
        if i > 0 {
          assert c[i] == ToLower(s[i]);
        }
      }
    }
  }

  /** Capitalizing an already capitalized name leaves it as it is. */
  lemma CapitalizeIdempotent(s: string)
    ensures Capitalize(Capitalize(s)) == Capitalize(s)
  {
    var c := Capitalize(s);
    var cc := Capitalize(c);
    forall i | 0 <= i < |s| ensures cc[i] == c[i] {
      if i > 0 {
        assert !IsUpper(c[i]);
      }
    }
  }

  function DigitChar(d: nat): (c: char)
    requires d < 10
    ensures IsDigit(c) && c as int - '0' as int == d
  {
    ('0' as int + d) as char
  }

  /** The decimal digits of `n`, most significant first, without leading
      zeros. */
  function Digits(n: nat): (s: string)
    ensures 1 <= |s|
    ensures forall i :: 0 <= i < |s| ==> IsDigit(s[i])
    ensures s[0] == '0' <==> n == 0
    ensures n == 0 ==> s == "0"
    decreases n
  {
    if n < 10 then [DigitChar(n)] else Digits(n / 10) + [DigitChar(n % 10)]
  }

  /** The value of a run of decimal digits (leading zeros allowed). */
  function DigitsValue(s: string): (v: nat)
    requires forall i :: 0 <= i < |s| ==> IsDigit(s[i])
  {
    if s == [] then 0
    else
      assert IsDigit(s[|s| - 1]);
      DigitsValue(s[..|s| - 1]) * 10 + (s[|s| - 1] as int - '0' as int)
  }

  predicate AllDigits(s: string) {
    forall i :: 0 <= i < |s| ==> IsDigit(s[i])
  }

  /** The text after an optional leading '-'. */
  function Unsigned(s: string): string {
    if s != [] && s[0] == '-' then s[1..] else s
  }

  /** The form in which Python writes an integer: an optional '-' and then
      at least one digit, with no '+' and no leading zero; zero is "0". */
  predicate Canonical(s: string) {
    var body := Unsigned(s);
    body != [] && AllDigits(body) && (body[0] == '0' ==> s == "0")
  }

  /** An integer as Python formats it with `str` or inside an f-string. */
  function ShowInt(n: int): (s: string)
    ensures Canonical(s)
    ensures n < 0 <==> s[0] == '-'
  {
    if n < 0 then "-" + Digits(-n) else Digits(n)
  }

  /** The texts `int(...)` accepts here: an optional sign, then at least one
      ASCII digit. */
  predicate IntText(s: string) {
    if s != [] && (s[0] == '-' || s[0] == '+') then |s| > 1 && AllDigits(s[1..])
    else s != [] && AllDigits(s)
  }

  /** `int(s)`: an optional sign followed by at least one ASCII digit;
      anything else raises, which is `None` here. */
  function ParseInt(s: string): (r: Option<int>)
    ensures r.Some? <==> IntText(s)
    ensures r.Some? ==> (r.value < 0 ==> s[0] == '-')
  {
    if s != [] && (s[0] == '-' || s[0] == '+') then
      var body := s[1..];
      if body != [] && AllDigits(body) then
        var v: int := DigitsValue(body);
        Some(if s[0] == '-' then -v else v)
      else None
    else if s != [] && AllDigits(s) then Some(DigitsValue(s))
    else None
  }

  lemma {:induction false} DigitsRoundTrip(n: nat)
    ensures DigitsValue(Digits(n)) == n
    decreases n
  {
    if n >= 10 {
      var d := Digits(n);
      assert d[..|d| - 1] == Digits(n / 10);
      DigitsRoundTrip(n / 10);
    }
  }

  /** Reading back what an f-string wrote gives the same integer. */
  lemma ParseShowInt(n: int)
    ensures ParseInt(ShowInt(n)) == Some(n)
  {
    var s := ShowInt(n);
    if n < 0 {
      var d := Digits(-n);
      assert s[0] == '-' && s[1..] == d;
      assert AllDigits(d);
      DigitsRoundTrip(-n);
    } else {
      assert IsDigit(s[0]) && AllDigits(s);
      DigitsRoundTrip(n);
    }
  }

  /** A run of digits that starts with a non-zero digit has a value of at
      least one. */
  lemma {:induction false} DigitsValuePositive(d: string)
    requires d != [] && AllDigits(d) && d[0] != '0'
    ensures DigitsValue(d) >= 1
  {
    if |d| > 1 {
      var p := d[..|d| - 1];
      assert p[0] == d[0] && AllDigits(p);
      DigitsValuePositive(p);
    }
  }

  /** Writing out the value of a digit run without leading zeros gives the
      run back. */
  lemma {:induction false} ValueDigitsRoundTrip(d: string)
    requires d != [] && AllDigits(d) && (|d| > 1 ==> d[0] != '0')
    ensures Digits(DigitsValue(d)) == d
  {
    var p, c := d[..|d| - 1], d[|d| - 1];
    assert IsDigit(c);
    var dc := c as int - '0' as int;
    if |d| == 1 {
      assert p == [];
      assert DigitsValue(d) == dc;
      assert [DigitChar(dc)] == d;
    } else {
      assert p[0] == d[0] && AllDigits(p);
      DigitsValuePositive(p);
      ValueDigitsRoundTrip(p);
      var v := DigitsValue(d);
      assert v == DigitsValue(p) * 10 + dc;
      assert v / 10 == DigitsValue(p) && v % 10 == dc;
      assert d == p + [c];
    }
  }

  /** A leading zero does not change the value of a digit run. */
  lemma {:induction false} LeadingZeroValue(d: string)
    requires AllDigits(d)
    ensures AllDigits("0" + d) && DigitsValue("0" + d) == DigitsValue(d)
  {
    var z := "0" + d;
    assert AllDigits(z) by {
      forall i | 0 <= i < |z| ensures IsDigit(z[i]) {
        if i > 0 { assert z[i] == d[i - 1]; }
      }
    }
    if d != [] {
      var p := d[..|d| - 1];
      assert AllDigits(p);
      LeadingZeroValue(p);
      assert z[..|z| - 1] == "0" + p;
    }
  }

  /** `int()` gives a '+' sign, leading zeros and a '-' sign their usual
      meaning: "+5" and "05" read as 5, "-5" as -5, and "-0" as 0. */
  lemma PlusAndZerosKeepValue(d: string)
    requires d != [] && AllDigits(d)
    ensures ParseInt("+" + d) == ParseInt(d)
    ensures ParseInt("0" + d) == ParseInt(d)
    ensures ParseInt("-" + d).Some? && ParseInt("-" + d).value == -ParseInt(d).value
  {
    assert ("+" + d)[1..] == d && ("-" + d)[1..] == d;
    LeadingZeroValue(d);
  }

  /** Reading a canonical integer text and writing the value out again gives
      the same text. */
  lemma ShowParseInt(s: string)
    requires Canonical(s)
    ensures ParseInt(s).Some? && ShowInt(ParseInt(s).value) == s
  {
    var body := Unsigned(s);
    if s[0] == '-' {
      assert body == s[1..] && body[0] != '0';
      DigitsValuePositive(body);
      ValueDigitsRoundTrip(body);
      assert s == "-" + body;
    } else {
      assert body == s && IsDigit(s[0]);
      ValueDigitsRoundTrip(s);
    }
  }
}
