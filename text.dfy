/** String helpers the rest of the model shares: JavaScript's whitespace
    class, `String.prototype.trim`, the decimal rendering of an integer
    (`String(n)`) and `parseInt` with no radix. */
module Text {

  datatype Option<T> = None | Some(value: T)

  /** JavaScript's WhiteSpace and LineTerminator code points: the set that
      `trim` strips and that `parseInt` skips before the number. */
  predicate IsSpace(c: char) {
    c == ' ' || c == '\t' || c == '\n' || c == '\r' || c == '\U{000B}' || c == '\U{000C}'
    || c == '\U{00A0}' || c == '\U{1680}' || ('\U{2000}' <= c <= '\U{200A}')
    || c == '\U{2028}' || c == '\U{2029}' || c == '\U{202F}' || c == '\U{205F}'
    || c == '\U{3000}' || c == '\U{FEFF}'
  }

  /** Every character of `s` is whitespace. */
  predicate AllSpace(s: string) {
    forall k :: 0 <= k < |s| ==> IsSpace(s[k])
  }

  /** `s` with its leading whitespace removed. */
  function TrimStart(s: string): (r: string)
    ensures |r| <= |s| && r == s[|s| - |r|..]
    ensures AllSpace(s[..|s| - |r|])
    ensures r != [] ==> !IsSpace(r[0])
  {
    if s != [] && IsSpace(s[0]) then
      var r := TrimStart(s[1..]);
      assert s[..|s| - |r|] == [s[0]] + s[1..][..|s| - 1 - |r|];
      r
    else s
  }

  /** `s` with its trailing whitespace removed. */
  function TrimEnd(s: string): (r: string)
    ensures |r| <= |s| && r == s[..|r|]
    ensures AllSpace(s[|r|..])
    ensures r != [] ==> !IsSpace(r[|r| - 1])
  {
    if s != [] && IsSpace(s[|s| - 1]) then
      var r := TrimEnd(s[..|s| - 1]);
      assert s[|r|..] == s[..|s| - 1][|r|..] + [s[|s| - 1]];
      r
    else s
  }

  /** `s.trim()`: the longest infix of `s` that neither starts nor ends
      with whitespace once everything outside it, all whitespace, is cut. */
  function Trim(s: string): (r: string)
  {
    TrimEnd(TrimStart(s))
  }

  /** A prefix of a suffix is an infix, and what follows it is the rest of the suffix. */
  lemma SliceOfSuffix(s: string, i: nat, t: string, r: string)
    requires i <= |s| && t == s[i..] && |r| <= |t| && r == t[..|r|]
    ensures i + |r| <= |s| && r == s[i..i + |r|] && s[i + |r|..] == t[|r|..]
  {
  }

  /** The shape of a trimmed infix, from the facts `TrimStart` and `TrimEnd`
      guarantee about their results. */
  lemma InfixBetweenSpaces(s: string, i: nat, t: string, r: string)
    requires i <= |s| && t == s[i..] && AllSpace(s[..i]) && (t != [] ==> !IsSpace(t[0]))
    requires |r| <= |t| && r == t[..|r|] && AllSpace(t[|r|..]) && (r != [] ==> !IsSpace(r[|r| - 1]))
    ensures i + |r| <= |s| && r == s[i..i + |r|]
    ensures AllSpace(s[..i]) && AllSpace(s[i + |r|..])
    ensures r != [] ==> !IsSpace(r[0]) && !IsSpace(r[|r| - 1])
  {
    SliceOfSuffix(s, i, t, r);
    if r != [] {
      assert r[0] == t[0];
    }
  }

  /** What `trim` keeps: an infix `s[i..i+|r|]` with whitespace on either side of it,
      whose own ends are not whitespace. */
  lemma TrimIsInfix(s: string)
    ensures var r := Trim(s);
      var i := |s| - |TrimStart(s)|;
      && i + |r| <= |s| && r == s[i..i + |r|]
      && AllSpace(s[..i]) && AllSpace(s[i + |r|..])
      && (r != [] ==> !IsSpace(r[0]) && !IsSpace(r[|r| - 1]))
  {
    var t := TrimStart(s);
    InfixBetweenSpaces(s, |s| - |t|, t, TrimEnd(t));
  }

  /** Trimming twice is trimming once. */
  lemma {:induction false} TrimIdempotent(s: string)
    ensures Trim(Trim(s)) == Trim(s)
  {
    var r := Trim(s);
    TrimIsInfix(s);
    if r != [] {
      assert TrimStart(r) == r;
      assert TrimEnd(r) == r;
    } else {
      assert Trim(r) == [];
    }
  }

  // ---------------------------------------------------------------
  // Decimal rendering and parsing.
  // ---------------------------------------------------------------

  predicate IsDecimalDigit(c: char) { '0' <= c <= '9' }

  function DigitChar(d: nat): (c: char)
    requires d < 10
    ensures IsDecimalDigit(c)
  {
    ['0', '1', '2', '3', '4', '5', '6', '7', '8', '9'][d]
  }

  /** The value of a digit in base 10 or 16, or -1 when `c` is not a digit of that base. */
  function DigitValue(c: char, base: nat): (v: int)
    requires base == 10 || base == 16
    ensures -1 <= v < base as int
    ensures IsDecimalDigit(c) ==> v == (c as int) - ('0' as int)
  {
    if '0' <= c <= '9' then (c as int) - ('0' as int)
    else if base == 16 && 'a' <= c <= 'f' then (c as int) - ('a' as int) + 10
    else if base == 16 && 'A' <= c <= 'F' then (c as int) - ('A' as int) + 10
    else -1
  }

  lemma DigitCharValue(d: nat)
    requires d < 10
    ensures DigitValue(DigitChar(d), 10) == d
    ensures DigitValue(DigitChar(d), 16) == d
  {
  }

  /** `String(n)` for a natural number: the shortest decimal numeral. */
  function NatToString(n: nat): (s: string)
    ensures |s| >= 1
    ensures forall k :: 0 <= k < |s| ==> IsDecimalDigit(s[k])
    ensures s[0] == '0' ==> n == 0 && |s| == 1
  {
    if n < 10 then [DigitChar(n)] else NatToString(n / 10) + [DigitChar(n % 10)]
  }

  /** `String(i)` for an integer: a minus sign before the numeral of `|i|`. */
  function IntToString(i: int): (s: string)
    ensures |s| >= 1
  {
    if i < 0 then "-" + NatToString(-i) else NatToString(i)
  }

  /** How many characters at the start of `s` are digits of `base`. */
  function DigitRun(s: string, base: nat): (n: nat)
    requires base == 10 || base == 16
    ensures n <= |s|
    ensures forall k :: 0 <= k < n ==> DigitValue(s[k], base) >= 0
    ensures n < |s| ==> DigitValue(s[n], base) < 0
  {
    if s == [] || DigitValue(s[0], base) < 0 then 0 else 1 + DigitRun(s[1..], base)
  }

  /** The number that the digits `ds` of `base` spell, most significant first. */
  function DigitsValue(ds: string, base: nat): (v: nat)
    requires base == 10 || base == 16
    requires forall k :: 0 <= k < |ds| ==> DigitValue(ds[k], base) >= 0
  {
    if ds == [] then 0
    else DigitsValue(ds[..|ds| - 1], base) * base + DigitValue(ds[|ds| - 1], base) as nat
  }

  /** The unsigned part of a `parseInt` argument after the sign: a `0x` or `0X`
      prefix switches to base 16; `None` is `NaN` (no digit at all). */
  function ParseMagnitude(s: string): (r: Option<nat>)
  {
    if |s| >= 2 && s[0] == '0' && (s[1] == 'x' || s[1] == 'X') then
      var ds := s[2..];
      var n := DigitRun(ds, 16);
      if n == 0 then None else Some(DigitsValue(ds[..n], 16))
    else
      var n := DigitRun(s, 10);
      if n == 0 then None else Some(DigitsValue(s[..n], 10))
  }

  /** `parseInt(s)`: skip leading whitespace, read an optional sign, then the
      longest run of digits; `None` stands for `NaN`. */
  function ParseInt(s: string): (r: Option<int>)
  {
    var t := TrimStart(s);
    if t != [] && (t[0] == '-' || t[0] == '+') then
      match ParseMagnitude(t[1..])
      case None => None
      case Some(m) => Some(if t[0] == '-' then -(m as int) else m as int)
    else
      match ParseMagnitude(t)
      case None => None
      case Some(m) => Some(m)
  }

  lemma {:induction false} DigitsValueOfNat(n: nat)
    ensures forall k :: 0 <= k < |NatToString(n)| ==> DigitValue(NatToString(n)[k], 10) >= 0
    ensures DigitsValue(NatToString(n), 10) == n
  {
    var s := NatToString(n);
    forall k | 0 <= k < |s| ensures DigitValue(s[k], 10) >= 0 {
      assert IsDecimalDigit(s[k]);
    }
    if n < 10 {
      DigitCharValue(n);
      assert s[..|s| - 1] == [];
    } else {
      DigitsValueOfNat(n / 10);
      DigitCharValue(n % 10);
      assert s[..|s| - 1] == NatToString(n / 10);
    }
  }

  /** Reading back what `NatToString` wrote gives the number. */
  lemma ParseMagnitudeOfNat(n: nat)
    ensures ParseMagnitude(NatToString(n)) == Some(n)
  {
    var s := NatToString(n);
    DigitsValueOfNat(n);
    assert !(|s| >= 2 && s[0] == '0');
    assert DigitRun(s, 10) == |s| by {
      forall k | 0 <= k < |s| ensures DigitValue(s[k], 10) >= 0 { }
    }
    assert s[..|s|] == s;
  }

  /** A string that starts with a non-blank character is left whole by `TrimStart`. */
  lemma TrimStartKeeps(s: string)
    requires s != [] && !IsSpace(s[0])
    ensures TrimStart(s) == s
  {
  }

  lemma DigitIsNotSpace(c: char)
    requires IsDecimalDigit(c)
    ensures !IsSpace(c) && c != '-' && c != '+'
  {
  }

  /** `parseInt(String(i)) == i`: the decimal printer and `parseInt` are inverse. */
  lemma ParseIntOfString(i: int)
    ensures ParseInt(IntToString(i)) == Some(i)
  {
    var s := IntToString(i);
    var m: nat := if i < 0 then -i else i;
    ParseMagnitudeOfNat(m);
    if i < 0 {
      assert s[0] == '-' && s[1..] == NatToString(m);
      TrimStartKeeps(s);
    } else {
      DigitIsNotSpace(s[0]);
      TrimStartKeeps(s);
    }
  }

  lemma {:induction false} DigitRunOfDigitsThen(d: string, tail: string)
    requires forall k :: 0 <= k < |d| ==> IsDecimalDigit(d[k])
    requires tail != [] && !IsDecimalDigit(tail[0])
    ensures DigitRun(d + tail, 10) == |d|
  {
    if d == [] {
      assert (d + tail)[0] == tail[0];
    } else {
      assert (d + tail)[1..] == d[1..] + tail;
      DigitRunOfDigitsThen(d[1..], tail);
    }
  }

  /** The magnitude read from a numeral followed by a non-digit is the numeral's value. */
  lemma ParseMagnitudeStopsAtNonDigit(n: nat, tail: string)
    requires tail != [] && !IsDecimalDigit(tail[0]) && tail[0] != 'x' && tail[0] != 'X'
    ensures ParseMagnitude(NatToString(n) + tail) == Some(n)
  {
    var d := NatToString(n);
    var s := d + tail;
    DigitsValueOfNat(n);
    assert !(|s| >= 2 && s[0] == '0' && (s[1] == 'x' || s[1] == 'X')) by {
      if |d| == 1 { assert s[1] == tail[0]; } else { assert s[0] == d[0] != '0'; }
    }
    DigitRunOfDigitsThen(d, tail);
    assert s[..|d|] == d;
  }

  /** `parseInt` stops at the first character that is not a digit, so
      `parseInt("12.5")` is 12 (a leading "0x" aside, which switches base). */
  lemma ParseIntStopsAtNonDigit(n: nat, tail: string)
    requires tail != [] && !IsDecimalDigit(tail[0]) && tail[0] != 'x' && tail[0] != 'X'
    ensures ParseInt(NatToString(n) + tail) == Some(n)
  {
    var s := NatToString(n) + tail;
    assert s[0] == NatToString(n)[0];
    DigitIsNotSpace(s[0]);
    TrimStartKeeps(s);
    ParseMagnitudeStopsAtNonDigit(n, tail);
  }
}
