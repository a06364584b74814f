/** The string operations the parameter check relies on: whitespace stripping
    and the integer syntax accepted by `int()`. */
module Text {

  /** The characters `str.strip()` removes: space, tab, line feed, vertical tab, form feed, carriage return. */
  predicate IsSpace(c: char)
  {
    c == ' ' || ('\t' <= c <= '\r')
  }

  predicate IsBlank(s: string)
  {
    forall i :: 0 <= i < |s| ==> IsSpace(s[i])
  }

  /** `s` without its leading whitespace. */
  function TrimLeft(s: string): (r: string)
    ensures |r| <= |s| && r == s[|s| - |r|..]
    ensures IsBlank(s[..|s| - |r|])
    ensures r == [] || !IsSpace(r[0])
  {
    if |s| > 0 && IsSpace(s[0]) then
      var tail := s[1..];
      var r := TrimLeft(tail);
      assert tail[|tail| - |r|..] == s[|s| - |r|..];
      assert s[..|s| - |r|] == [s[0]] + tail[..|tail| - |r|];
      r
    else s
  }

  /** `s` without its trailing whitespace. */
  function TrimRight(s: string): (r: string)
    ensures |r| <= |s| && r == s[..|r|]
    ensures IsBlank(s[|r|..])
    ensures r == [] || !IsSpace(r[|r| - 1])
  {
    if |s| > 0 && IsSpace(s[|s| - 1]) then
      var init := s[..|s| - 1];
      var r := TrimRight(init);
      assert init[..|r|] == s[..|r|];
      assert s[|r|..] == init[|r|..] + [s[|s| - 1]];
      r
    else s
  }

  /** `str.strip()`. */
  function Strip(s: string): string
  {
    TrimRight(TrimLeft(s))
  }

  /** A string strips to nothing exactly when it is all whitespace. */
  lemma StripEmptyIffBlank(s: string)
    ensures Strip(s) == [] <==> IsBlank(s)
  {
    var l := TrimLeft(s);
    if Strip(s) == [] {
      assert IsBlank(l[0..]);
      assert l == [];
      assert s[..|s|] == s;
    } else {
      assert !IsSpace(Strip(s)[0]);
      assert l[0] == Strip(s)[0];
      assert s[|s| - |l|] == l[0];
    }
  }

  /** `unicodeSlice(s, 0, n)`: the first `n` characters, or all of `s` when shorter. */
  function Slice(s: string, n: nat): (r: string)
    ensures |r| <= n && |r| <= |s| && r == s[..|r|]
    ensures |s| <= n ==> r == s
    ensures |s| > n ==> |r| == n
  {
    if |s| <= n then s else s[..n]
  }

  predicate IsDigit(c: char)
  {
    '0' <= c <= '9'
  }

  predicate AllDigits(s: string)
  {
    forall i :: 0 <= i < |s| ==> IsDigit(s[i])
  }

  /** The syntax `int()` accepts: optional surrounding whitespace, an optional sign, more
      optional whitespace after the sign, one or more digits. */
  predicate IsInteger(s: string)
  {
    var t := Strip(s);
    if |t| > 0 && (t[0] == '+' || t[0] == '-') then TrimLeft(t[1..]) != [] && AllDigits(TrimLeft(t[1..]))
    else |t| > 0 && AllDigits(t)
  }

  /** The value of a string of decimal digits. */
  function DigitsValue(s: string): (v: nat)
    requires AllDigits(s)
  {
    if s == [] then 0 else 10 * DigitsValue(s[..|s| - 1]) + (s[|s| - 1] - '0') as nat
  }

  /** `int(s)` for a string that `IsInteger` accepts. */
  function ParseInteger(s: string): int
    requires IsInteger(s)
  {
    var t := Strip(s);
    if t[0] == '-' then -(DigitsValue(TrimLeft(t[1..])) as int)
    else if t[0] == '+' then DigitsValue(TrimLeft(t[1..]))
    else DigitsValue(t)
  }

  /** Leading whitespace is skipped up to the first other character. */
  lemma {:induction false} TrimLeftBlank(ws: string, d: string)
    requires IsBlank(ws) && (d == [] || !IsSpace(d[0]))
    ensures TrimLeft(ws + d) == d
    decreases |ws|
  {
    if ws != [] {
      assert (ws + d)[1..] == ws[1..] + d;
      TrimLeftBlank(ws[1..], d);
    }
  }

  /** Whitespace may separate the sign from the digits: a sign, any run of blanks and a
      non-empty digit string make an integer, negative exactly under '-'. */
  lemma SpaceAfterSign(sign: char, ws: string, d: string)
    requires sign == '+' || sign == '-'
    requires IsBlank(ws) && d != [] && AllDigits(d)
    ensures IsInteger([sign] + ws + d)
    ensures ParseInteger([sign] + ws + d) == if sign == '-' then -(DigitsValue(d) as int) else DigitsValue(d)
  {
    var s := [sign] + ws + d;
    assert s[|s| - 1] == d[|d| - 1];
    StripBare(s);
    assert s[1..] == ws + d;
    TrimLeftBlank(ws, d);
    assert TrimLeft(Strip(s)[1..]) == d;
  }

  /** A string that neither starts nor ends with whitespace strips to itself. */
  lemma StripBare(s: string)
    requires s != [] && !IsSpace(s[0]) && !IsSpace(s[|s| - 1])
    ensures Strip(s) == s
  {
    assert TrimLeft(s) == s;
  }


  /** A string of digits has no more decimal digits than its length allows. */
  lemma {:induction false} DigitsValueBound(s: string)
    requires AllDigits(s)
    ensures DigitsValue(s) < Pow10(|s|)
  {
    if s != [] {
      DigitsValueBound(s[..|s| - 1]);
    }
  }

  function Pow10(n: nat): (p: nat)
    ensures p >= 1
  {
    if n == 0 then 1 else 10 * Pow10(n - 1)
  }

  /** Leading zeros do not change the value: a five-character id "00042" is 42. */
  lemma {:induction false} LeadingZerosIgnored(s: string)
    requires AllDigits(s)
    ensures AllDigits("0" + s) && DigitsValue("0" + s) == DigitsValue(s)
  {
    var z := "0" + s;
    assert forall i :: 0 <= i < |z| ==> IsDigit(z[i]);
    if s != [] {
      assert z[..|z| - 1] == "0" + s[..|s| - 1];
      LeadingZerosIgnored(s[..|s| - 1]);
    }
  }
}
