/**
 * The Python string built-ins that the configuration code relies on:
 * `str.split(',')`, `str.strip()`, `str.lower()`, `int(str)` and `str(int)`.
 */
module Strings {
  import opened Wrappers

  /** The characters Python's `str.isspace()` accepts, hence those `str.strip()` removes. */
  predicate IsSpace(c: char) {
    || ('\t' <= c <= '\r') || ('\U{1c}' <= c <= ' ')
    || (c >= '\U{85}' && (c == '\U{85}' || c == '\U{a0}' || c == '\U{1680}' || ('\U{2000}' <= c <= '\U{200a}')
        || c == '\U{2028}' || c == '\U{2029}' || c == '\U{202f}' || c == '\U{205f}' || c == '\U{3000}'))
  }

  /** `s` with its leading white space removed. */
  function TrimStart(s: string): (r: string)
    ensures |r| <= |s| && r == s[|s| - |r|..]
    ensures r == [] || !IsSpace(r[0])
  {
    if s != [] && IsSpace(s[0]) then TrimStart(s[1..]) else s
  }

  /** Everything `TrimStart` removes is white space. */
  lemma {:induction false} TrimStartCut(s: string)
    ensures forall i :: 0 <= i < |s| - |TrimStart(s)| ==> IsSpace(s[i])
  {
    if s != [] && IsSpace(s[0]) {
      TrimStartCut(s[1..]);
      forall i | 1 <= i < |s| - |TrimStart(s)| ensures IsSpace(s[i]) {
        assert s[i] == s[1..][i - 1];
      }
    }
  }

  /** `s` with its trailing white space removed. */
  function TrimEnd(s: string): (r: string)
    ensures |r| <= |s| && r == s[..|r|]
    ensures r == [] || !IsSpace(r[|r| - 1])
  {
    if s != [] && IsSpace(s[|s| - 1]) then TrimEnd(s[..|s| - 1]) else s
  }

  /** Everything `TrimEnd` removes is white space. */
  lemma {:induction false} TrimEndCut(s: string)
    ensures forall i :: |TrimEnd(s)| <= i < |s| ==> IsSpace(s[i])
  {
    if s != [] && IsSpace(s[|s| - 1]) {
      TrimEndCut(s[..|s| - 1]);
    }
  }

  /** Python's `s.strip()`: white space cut from both ends. */
  function Strip(s: string): (r: string)
    ensures |r| <= |s|
    ensures r == [] || (!IsSpace(r[0]) && !IsSpace(r[|r| - 1]))
  {
    TrimEnd(TrimStart(s))
  }

  /** What `Strip` keeps is one slice of `s`. */
  lemma StripSlice(s: string)
    ensures var k := |s| - |TrimStart(s)|; var r := Strip(s);
            k + |r| <= |s| && r == s[k..k + |r|]
  {
    var t := TrimStart(s);
    var k := |s| - |t|;
    var r := TrimEnd(t);
    SliceOfSuffix(s, k, |r|);
  }

  lemma SliceOfSuffix(s: string, k: int, n: int)
    requires 0 <= k <= |s| && 0 <= n <= |s| - k
    ensures s[k..][..n] == s[k..k + n]
  {
  }

  /** Everything `Strip` cuts from either end is white space. */
  lemma StripCut(s: string)
    ensures var k := |s| - |TrimStart(s)|; var r := Strip(s);
            && (forall i :: 0 <= i < k ==> IsSpace(s[i]))
            && (forall i :: k + |r| <= i < |s| ==> IsSpace(s[i]))
  {
    var t := TrimStart(s);
    var k := |s| - |t|;
    var r := TrimEnd(t);
    TrimStartCut(s);
    TrimEndCut(t);
    assert t == s[k..];
    forall i | k + |r| <= i < |s| ensures IsSpace(s[i]) {
      assert s[i] == t[i - k];
    }
  }

  /** Stripping leaves nothing exactly when the text is all white space. */
  lemma StripEmpty(s: string)
    ensures Strip(s) == [] <==> forall i :: 0 <= i < |s| ==> IsSpace(s[i])
  {
    var r := Strip(s);
    StripSlice(s);
    StripCut(s);
    if r != [] {
      var k := |s| - |TrimStart(s)|;
      assert s[k] == r[0];
    }
  }

  lemma StripIdempotent(s: string)
    ensures Strip(Strip(s)) == Strip(s)
  {
    var r := Strip(s);
    assert TrimStart(r) == r;
    assert TrimEnd(r) == r;
  }

  /** Python's `sep.join(pieces)`, for a one-character separator. */
  function Join(pieces: seq<string>, sep: char): string {
    if pieces == [] then ""
    else if |pieces| == 1 then pieces[0]
    else pieces[0] + [sep] + Join(pieces[1..], sep)
  }

  /** Python's `s.split(sep)`: the pieces between separators, always at least one. */
  function Split(s: string, sep: char): (r: seq<string>)
    ensures |r| >= 1
    ensures forall i :: 0 <= i < |r| ==> sep !in r[i]
  {
    if s == [] then [""]
    else
      var rest := Split(s[1..], sep);
      if s[0] == sep then [""] + rest
      else [[s[0]] + rest[0]] + rest[1..]
  }

  /** Joining the pieces with the separator gives back the text. */
  lemma {:induction false} JoinSplit(s: string, sep: char)
    ensures Join(Split(s, sep), sep) == s
  {
    if s != [] {
      var rest := Split(s[1..], sep);
      JoinSplit(s[1..], sep);
      var r := Split(s, sep);
      if s[0] == sep {
        assert r[1..] == rest;
      } else if |rest| == 1 {
        assert r == [[s[0]] + s[1..]];
        assert [s[0]] + s[1..] == s;
      } else {
        assert r[1..] == rest[1..];
        calc {
          Join(r, sep);
          ([s[0]] + rest[0]) + [sep] + Join(rest[1..], sep);
          [s[0]] + (rest[0] + [sep] + Join(rest[1..], sep));
          [s[0]] + Join(rest, sep);
          s;
        }
      }
    }
  }

  lemma {:induction false} SplitWithoutSeparator(a: string, sep: char)
    requires sep !in a
    ensures Split(a, sep) == [a]
  {
    if a != [] {
      SplitWithoutSeparator(a[1..], sep);
      assert [a[0]] + a[1..] == a;
    }
  }

  lemma {:induction false} SplitAtSeparator(a: string, sep: char, t: string)
    requires sep !in a
    ensures Split(a + [sep] + t, sep) == [a] + Split(t, sep)
  {
    var s := a + [sep] + t;
    if a == [] {
      assert s[1..] == t;
    } else {
      assert s[1..] == a[1..] + [sep] + t;
      SplitAtSeparator(a[1..], sep, t);
      assert [a[0]] + a[1..] == a;
    }
  }

  /** Splitting undoes joining when no piece holds the separator. */
  lemma {:induction false} SplitJoin(pieces: seq<string>, sep: char)
    requires |pieces| >= 1
    requires forall i :: 0 <= i < |pieces| ==> sep !in pieces[i]
    ensures Split(Join(pieces, sep), sep) == pieces
  {
    if |pieces| == 1 {
      SplitWithoutSeparator(pieces[0], sep);
    } else {
      SplitAtSeparator(pieces[0], sep, Join(pieces[1..], sep));
      SplitJoin(pieces[1..], sep);
    }
  }

  /** ASCII case mapping used by `str.lower()`; other characters are kept. */
  function LowerChar(c: char): char {
    if 'A' <= c <= 'Z' then (c as int - 'A' as int + 'a' as int) as char else c
  }

  /** Python's `s.lower()`, on ASCII letters. */
  function Lower(s: string): (r: string)
    ensures |r| == |s| && forall i :: 0 <= i < |s| ==> r[i] == LowerChar(s[i])
  {
    seq(|s|, i requires 0 <= i < |s| => LowerChar(s[i]))
  }

  predicate IsDigit(c: char) {
    '0' <= c <= '9'
  }

  predicate AllDigits(s: string) {
    forall i :: 0 <= i < |s| ==> IsDigit(s[i])
  }

  function DigitValue(c: char): (d: nat)
    requires IsDigit(c)
    ensures d < 10
  {
    c as int - '0' as int
  }

  function DigitChar(d: nat): (c: char)
    requires d < 10
    ensures IsDigit(c) && DigitValue(c) == d
  {
    ('0' as int + d) as char
  }

  /** The decimal value of a non-empty run of digits (leading zeros allowed). */
  function ParseDigits(s: string): nat
    requires s != [] && AllDigits(s)
  {
    if |s| == 1 then DigitValue(s[0])
    else ParseDigits(s[..|s| - 1]) * 10 + DigitValue(s[|s| - 1])
  }

  /** Python's `str(n)` for a natural number: its decimal digits, no leading zero. */
  function NatToString(n: nat): (r: string)
    ensures r != [] && AllDigits(r)
    ensures r[0] == '0' ==> n == 0
  {
    if n < 10 then [DigitChar(n)]
    else NatToString(n / 10) + [DigitChar(n % 10)]
  }

  /** Python's `str(i)` for an integer. */
  function IntToString(i: int): (r: string)
    ensures r != []
    ensures r[0] == '-' <==> i < 0
    ensures i >= 0 ==> AllDigits(r)
    ensures i < 0 ==> AllDigits(r[1..])
  {
    if i < 0 then "-" + NatToString(-i) else NatToString(i)
  }

  /**
   * `int(s)` restricted to an optional sign followed by ASCII digits;
   * `None` stands for the `ValueError` Python raises.
   */
  function ParseInt(s: string): (r: Option<int>)
    ensures r.Some? <==> s != [] && (AllDigits(s) || ((s[0] == '-' || s[0] == '+') && |s| > 1 && AllDigits(s[1..])))
    ensures r.Some? && s[0] == '-' ==> r.value <= 0
    ensures r.Some? && s[0] != '-' ==> r.value >= 0
  {
    if s == [] then None
    else if s[0] == '-' || s[0] == '+' then
      if |s| > 1 && AllDigits(s[1..]) then
        var n: int := ParseDigits(s[1..]);
        Some(if s[0] == '-' then -n else n)
      else None
    else if AllDigits(s) then Some(ParseDigits(s))
    else None
  }

  lemma {:induction false} ParseDigitsOfNat(n: nat)
    ensures ParseDigits(NatToString(n)) == n
  {
    if n >= 10 {
      var s := NatToString(n);
      assert s[..|s| - 1] == NatToString(n / 10);
      ParseDigitsOfNat(n / 10);
    }
  }

  /** Parsing undoes rendering: `int(str(i)) == i`. */
  lemma ParseIntOfIntToString(i: int)
    ensures ParseInt(IntToString(i)) == Some(i)
  {
    var s := IntToString(i);
    if i < 0 {
      var t := NatToString(-i);
      ParseDigitsOfNat(-i);
      assert s == "-" + t && s[1..] == t;
    } else {
      ParseDigitsOfNat(i);
      assert IsDigit(s[0]) && s[0] != '-' && s[0] != '+';
    }
  }

  /** A run of digits that does not start with '0' has a positive value. */
  lemma {:induction false} ParseDigitsPositive(s: string)
    requires s != [] && AllDigits(s) && s[0] != '0'
    ensures ParseDigits(s) > 0
    decreases |s|
  {
    if |s| > 1 {
      ParseDigitsPositive(s[..|s| - 1]);
    }
  }

  /** Rendering undoes parsing on canonical digit runs: `str(int(s)) == s` when `s` has no leading zero. */
  lemma {:induction false} NatToStringOfParseDigits(s: string)
    requires s != [] && AllDigits(s) && (s[0] != '0' || |s| == 1)
    ensures NatToString(ParseDigits(s)) == s
    decreases |s|
  {
    var last := s[|s| - 1];
    assert DigitChar(DigitValue(last)) == last;
    if |s| > 1 {
      var p := s[..|s| - 1];
      var n := ParseDigits(s);
      ParseDigitsPositive(p);
      NatToStringOfParseDigits(p);
      assert n / 10 == ParseDigits(p) && n % 10 == DigitValue(last);
      assert s == p + [last];
    }
  }

  /** A leading zero does not change the value of a digit run. */
  lemma {:induction false} ParseDigitsLeadingZero(s: string)
    requires s != [] && AllDigits(s)
    ensures AllDigits("0" + s) && ParseDigits("0" + s) == ParseDigits(s)
    decreases |s|
  {
    var t := "0" + s;
    assert AllDigits(t) by {
      forall i | 0 <= i < |t| ensures IsDigit(t[i]) {
        if i > 0 { assert t[i] == s[i - 1]; }
      }
    }
    assert t[|t| - 1] == s[|s| - 1];
    if |s| > 1 {
      ParseDigitsLeadingZero(s[..|s| - 1]);
      assert t[..|t| - 1] == "0" + s[..|s| - 1];
    } else {
      assert t[..|t| - 1] == "0";
    }
  }

  /** An unsigned digit run parses to its digit value. */
  lemma ParseIntOfDigits(t: string)
    requires t != [] && AllDigits(t)
    ensures ParseInt(t) == Some(ParseDigits(t) as int)
  {
    assert IsDigit(t[0]);
  }

  /** A sign followed by a digit run parses to the run's value, negated after '-'. */
  lemma ParseIntOfSigned(sign: char, t: string)
    requires sign == '+' || sign == '-'
    requires t != [] && AllDigits(t)
    ensures ParseInt([sign] + t) == Some(if sign == '-' then -(ParseDigits(t) as int) else ParseDigits(t) as int)
  {
    var s := [sign] + t;
    assert s[0] == sign && |s| > 1;
    assert s[1..] == t;
  }

  /** `int("+" + t)` is `int(t)` and `int("-" + t)` its negation, for a digit run `t`. */
  lemma ParseIntSigns(t: string)
    requires t != [] && AllDigits(t)
    ensures ParseInt("+" + t) == ParseInt(t)
    ensures ParseInt("-" + t) == Some(-ParseInt(t).value)
  {
    ParseIntOfDigits(t);
    ParseIntOfSigned('+', t);
    ParseIntOfSigned('-', t);
  }

  /** A zero-padded decimal reads as its number: `int("0" + str(n)) == n`, as `int("0123") == 123`. */
  lemma ParseIntOfZeroPadded(n: nat)
    ensures ParseInt("0" + NatToString(n)) == Some(n as int)
  {
    var t := NatToString(n);
    ParseDigitsLeadingZero(t);
    ParseDigitsOfNat(n);
    ParseIntOfDigits("0" + t);
  }

  /** `str(i)` begins with '0' only for zero itself. */
  lemma IntToStringNoLeadingZero(i: int)
    ensures IntToString(i)[0] == '0' ==> IntToString(i) == "0"
  {
    if i >= 0 && NatToString(i)[0] == '0' {
      assert i == 0;
    }
  }

  /** Distinct integers render differently. */
  lemma IntToStringInjective(a: int, b: int)
    ensures IntToString(a) == IntToString(b) <==> a == b
  {
    ParseIntOfIntToString(a);
    ParseIntOfIntToString(b);
  }
}
