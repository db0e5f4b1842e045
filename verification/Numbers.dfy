/** Number formats: `std::to_string` and hexadecimal printing, `std::stoul` and `std::stoi`. */
module Numbers {
  import opened Wrappers

  const U64 := 0x1_0000_0000_0000_0000
  const U32 := 0x1_0000_0000
  const INT_MAX := 0x7FFF_FFFF

  function Min(a: nat, b: nat): nat {
    if a <= b then a else b
  }

  /** `isspace` in the "C" locale. */
  predicate IsSpace(c: char) {
    c as int == 32 || 9 <= c as int <= 13
  }

  /** The value of a digit, 16 for any other character. */
  function DigitValue(c: char): nat {
    if '0' <= c <= '9' then c as int - '0' as int
    else if 'a' <= c <= 'f' then c as int - 'a' as int + 10
    else if 'A' <= c <= 'F' then c as int - 'A' as int + 10
    else 16
  }

  function DigitChar(v: nat): char
    requires v < 16
  {
    if v < 10 then ('0' as int + v) as char else ('a' as int + v - 10) as char
  }

  predicate AllDigits(s: string, base: nat) {
    forall i :: 0 <= i < |s| ==> DigitValue(s[i]) < base
  }

  /** Positional value of a string of digits. */
  function Value(s: string, base: nat): nat {
    if |s| == 0 then 0 else Value(s[..|s| - 1], base) * base + DigitValue(s[|s| - 1])
  }

  function Printed(n: nat, base: nat): string
    requires base == 10 || base == 16
  {
    if n < base then [DigitChar(n)] else Printed(n / base, base) + [DigitChar(n % base)]
  }

  function SkipSpaces(s: string, i: nat): (j: nat)
    requires i <= |s|
    ensures i <= j <= |s|
    decreases |s| - i
  {
    if i < |s| && IsSpace(s[i]) then SkipSpaces(s, i + 1) else i
  }

  function DigitsEnd(s: string, i: nat, base: nat): (j: nat)
    requires i <= |s|
    ensures i <= j <= |s|
    decreases |s| - i
  {
    if i < |s| && DigitValue(s[i]) < base then DigitsEnd(s, i + 1, base) else i
  }

  datatype Numeral = Numeral(negative: bool, magnitude: nat, end: nat)

  /** The part of `s` that `strtol` and `strtoul` convert: spaces, a sign, for base 16 a `0x` that
  has a digit behind it, then at least one digit. */
  function Scan(s: string, base: nat): Option<Numeral> {
    var i := SkipSpaces(s, 0);
    var signed := i < |s| && (s[i] == '+' || s[i] == '-');
    var j := if signed then i + 1 else i;
    var prefixed := base == 16 && j + 2 < |s| && s[j] == '0' && (s[j + 1] == 'x' || s[j + 1] == 'X')
                    && DigitValue(s[j + 2]) < 16;
    var k := if prefixed then j + 2 else j;
    var e := DigitsEnd(s, k, base);
    if e == k then None else Some(Numeral(signed && s[i] == '-', Value(s[k..e], base), e))
  }

  /** `std::stoul`: the value and the number of characters used, or an exception; a minus sign negates modulo 2^64. */
  function Stoul(s: string, base: nat): Option<(nat, nat)> {
    match Scan(s, base)
    case None => None
    case Some(n) =>
      if n.magnitude >= U64 then None
      else Some((if n.negative then (U64 - n.magnitude) % U64 else n.magnitude, n.end))
  }

  /** `std::stoi`: characters behind the number are ignored. */
  function Stoi(s: string): Option<int> {
    match Scan(s, 10)
    case None => None
    case Some(n) =>
      var v: int := if n.negative then -(n.magnitude as int) else n.magnitude as int;
      if -INT_MAX - 1 <= v <= INT_MAX then Some(v) else None
  }

  lemma Division(n: nat, base: nat)
    requires base == 10 || base == 16
    ensures n == n / base * base + n % base
    ensures n >= base ==> n / base < n
  {
    if base == 10 {
    } else {
    }
  }

  lemma ValueSnoc(s: string, v: nat, base: nat)
    requires (base == 10 || base == 16) && v < base && AllDigits(s, base)
    ensures var t := s + [DigitChar(v)]; AllDigits(t, base) && Value(t, base) == Value(s, base) * base + v
  {
    var t := s + [DigitChar(v)];
    assert t[..|t| - 1] == s;
  }

  lemma {:induction false} PrintedIsNumeral(n: nat, base: nat)
    requires base == 10 || base == 16
    ensures |Printed(n, base)| > 0 && AllDigits(Printed(n, base), base) && Value(Printed(n, base), base) == n
  {
    if n >= base {
      PrintedIsNumeral(n / base, base);
      ValueSnoc(Printed(n / base, base), n % base, base);
      Division(n, base);
    } else {
      ValueSnoc("", n, base);
      assert "" + [DigitChar(n)] == [DigitChar(n)];
    }
  }

  lemma {:induction false} DigitsRun(s: string, i: nat, e: nat, base: nat)
    requires i <= e <= |s| && AllDigits(s[i..e], base) && (e < |s| ==> DigitValue(s[e]) >= base)
    ensures DigitsEnd(s, i, base) == e
    decreases e - i
  {
    if i < e {
      assert DigitValue(s[i..e][0]) < base;
      assert s[i + 1..e] == s[i..e][1..];
      DigitsRun(s, i + 1, e, base);
    }
  }

  /** A string of digits, then a non-digit or the end, is read as its value. */
  lemma ScanDigits(s: string, e: nat, base: nat)
    requires base == 10 || base == 16
    requires 0 < e <= |s| && AllDigits(s[..e], base) && (e < |s| ==> DigitValue(s[e]) >= base)
    requires e < |s| ==> s[e] != 'x' && s[e] != 'X'
    ensures Scan(s, base) == Some(Numeral(false, Value(s[..e], base), e))
  {
    assert DigitValue(s[..e][0]) < base;
    assert e > 1 ==> DigitValue(s[..e][1]) < base;
    assert s[0..e] == s[..e];
    DigitsRun(s, 0, e, base);
  }

  // ---------------------------------------------------------------- every spelling

  predicate AllSpaces(s: string) {
    forall i :: 0 <= i < |s| ==> IsSpace(s[i])
  }

  predicate IsSign(sign: string) {
    sign == "" || sign == "+" || sign == "-"
  }

  predicate IsPrefix(prefix: string, base: nat) {
    prefix == "" || (base == 16 && (prefix == "0x" || prefix == "0X"))
  }

  /** An `x` with a digit behind it, which makes a preceding `0` a prefix. */
  predicate HexMark(s: string) {
    |s| > 1 && (s[0] == 'x' || s[0] == 'X') && DigitValue(s[1]) < 16
  }

  lemma {:induction false} SkipsGap(s: string, i: nat, e: nat)
    requires i <= e <= |s| && (forall k :: i <= k < e ==> IsSpace(s[k])) && (e < |s| ==> !IsSpace(s[e]))
    ensures SkipSpaces(s, i) == e
    decreases e - i
  {
    if i < e { SkipsGap(s, i + 1, e); }
  }

  /** The parts of a spelling in `s`: a gap up to `i`, a sign up to `j`, a prefix up to `k`, and digits up to `e`. */
  predicate Spelled(s: string, i: nat, j: nat, k: nat, e: nat, base: nat) {
    && i <= j <= k < e <= |s| && (forall n :: 0 <= n < i ==> IsSpace(s[n]))
    && !IsSpace(s[i]) && (j == if s[i] == '+' || s[i] == '-' then i + 1 else i)
    && k == (if base == 16 && s[j] == '0' && HexMark(s[j + 1..]) then j + 2 else j)
    && AllDigits(s[k..e], base) && (e < |s| ==> DigitValue(s[e]) >= base)
  }

  lemma ScanSpelled(s: string, i: nat, j: nat, k: nat, e: nat, base: nat)
    requires Spelled(s, i, j, k, e, base)
    ensures Scan(s, base) == Some(Numeral(s[i] == '-', Value(s[k..e], base), e))
  {
    SkipsGap(s, 0, i);
    DigitsRun(s, k, e, base);
    hide Value, AllDigits;
  }

  lemma PartsOf(a: string, b: string, c: string, d: string, e: string)
    ensures var s, i, j, k := a + b + c + d + e, |a|, |a| + |b|, |a| + |b| + |c|;
      && s[..i] == a && s[i..] == b + (c + (d + e)) && s[j..] == c + (d + e) && s[k..] == d + e
      && s[k..k + |d|] == d && s[k + |d|..] == e
  {
  }

  lemma GapAndSign(s: string, i: nat, sign: string, more: string)
    requires i <= |s| && s[i..] == sign + more && IsSign(sign) && more != "" && DigitValue(more[0]) < 16
    ensures s[i] == (sign + more)[0] && !IsSpace(s[i])
    ensures |sign| == (if s[i] == '+' || s[i] == '-' then 1 else 0) && (s[i] == '-' <==> sign == "-")
  {
  }

  lemma PrefixIs(s: string, j: nat, prefix: string, digits: string, rest: string, base: nat)
    requires (base == 10 || base == 16) && IsPrefix(prefix, base) && digits != "" && AllDigits(digits, base)
    requires j <= |s| && s[j..] == prefix + (digits + rest)
    requires base == 16 && prefix == "" && digits == "0" ==> !HexMark(rest)
    ensures |prefix| == (if base == 16 && s[j] == '0' && HexMark(s[j + 1..]) then 2 else 0)
    ensures (prefix + (digits + rest))[0] == s[j] && DigitValue(s[j]) < 16
  {
    var t := s[j..];
    assert s[j] == t[0] && s[j + 1..] == t[1..];
    if prefix == "" {
      assert t == digits + rest && t[0] == digits[0];
      if |digits| > 1 { assert t[1] == digits[1]; } else { assert t[1..] == rest; }
      assert |digits| == 1 && digits[0] == '0' ==> digits == "0";
    } else {
      assert t[1] == prefix[1] && t[2] == digits[0];
    }
  }

  lemma SpellingIs(gap: string, sign: string, prefix: string, digits: string, rest: string, base: nat)
    requires (base == 10 || base == 16) && AllSpaces(gap) && IsSign(sign) && IsPrefix(prefix, base)
    requires digits != "" && AllDigits(digits, base) && (rest != "" ==> DigitValue(rest[0]) >= base)
    requires base == 16 && prefix == "" && digits == "0" ==> !HexMark(rest)
    ensures var s, i := gap + sign + prefix + digits + rest, |gap|;
      var k := i + |sign| + |prefix|;
      && Spelled(s, i, i + |sign|, k, k + |digits|, base)
      && s[k..k + |digits|] == digits && (s[i] == '-' <==> sign == "-")
  {
    var s, i, j := gap + sign + prefix + digits + rest, |gap|, |gap| + |sign|;
    PartsOf(gap, sign, prefix, digits, rest);
    PrefixIs(s, j, prefix, digits, rest, base);
    GapAndSign(s, i, sign, prefix + (digits + rest));
    hide HexMark, AllDigits, IsPrefix, IsSign;
    forall n | 0 <= n < i ensures IsSpace(s[n]) { assert s[n] == s[..i][n]; }
    var e := j + |prefix| + |digits|;
    assert e < |s| ==> s[e] == s[e..][0];
  }

  /** Behind spaces, a sign and a base prefix the longest run of digits is read, and nothing of what follows it. */
  lemma ScanReads(gap: string, sign: string, prefix: string, digits: string, rest: string, base: nat)
    requires (base == 10 || base == 16) && AllSpaces(gap) && IsSign(sign) && IsPrefix(prefix, base)
    requires digits != "" && AllDigits(digits, base) && (rest != "" ==> DigitValue(rest[0]) >= base)
    requires base == 16 && prefix == "" && digits == "0" ==> !HexMark(rest)
    ensures Scan(gap + sign + prefix + digits + rest, base)
      == Some(Numeral(sign == "-", Value(digits, base), |gap| + |sign| + |prefix| + |digits|))
  {
    hide Scan, Spelled, Value, AllDigits, AllSpaces, HexMark;
    SpellingIs(gap, sign, prefix, digits, rest, base);
    var i, k := |gap|, |gap| + |sign| + |prefix|;
    ScanSpelled(gap + sign + prefix + digits + rest, i, i + |sign|, k, k + |digits|, base);
  }

  /** Without a digit there is no number. */
  lemma ScanFails(gap: string, sign: string, rest: string, base: nat)
    requires (base == 10 || base == 16) && AllSpaces(gap) && IsSign(sign)
    requires rest != "" ==> DigitValue(rest[0]) >= base
    requires rest != "" && sign == "" ==> !IsSpace(rest[0]) && rest[0] != '+' && rest[0] != '-'
    ensures Scan(gap + sign + rest, base) == None
  {
    var s := gap + sign + rest;
    var i, j := |gap|, |gap| + |sign|;
    assert |sign| > 0 ==> s[i] == sign[0];
    assert j < |s| ==> s[j] == rest[0];
    SkipsGap(s, 0, i);
  }

  /** `stoul` in terms of the spelling. */
  lemma StoulReads(gap: string, sign: string, prefix: string, digits: string, rest: string, base: nat)
    requires (base == 10 || base == 16) && AllSpaces(gap) && IsSign(sign) && IsPrefix(prefix, base)
    requires digits != "" && AllDigits(digits, base) && (rest != "" ==> DigitValue(rest[0]) >= base)
    requires base == 16 && prefix == "" && digits == "0" ==> !HexMark(rest)
    ensures Stoul(gap + sign + prefix + digits + rest, base) ==
      var v, used := Value(digits, base), |gap| + |sign| + |prefix| + |digits|;
      if v >= U64 then None else if sign == "-" && v > 0 then Some((U64 - v, used)) else Some((v, used))
  {
    hide Scan, Value, AllDigits, AllSpaces, HexMark, DigitValue;
    ScanReads(gap, sign, prefix, digits, rest, base);
    var v := Value(digits, base);
    if 0 < v < U64 { assert (U64 - v) % U64 == U64 - v; }
  }

  /** `stoi` in terms of the spelling. */
  lemma StoiReads(gap: string, sign: string, digits: string, rest: string)
    requires AllSpaces(gap) && IsSign(sign) && digits != "" && AllDigits(digits, 10)
    requires rest != "" ==> DigitValue(rest[0]) >= 10
    ensures Stoi(gap + sign + digits + rest) ==
      var v: int := if sign == "-" then -(Value(digits, 10) as int) else Value(digits, 10) as int;
      if -0x8000_0000 <= v <= 0x7FFF_FFFF then Some(v) else None
  {
    hide Scan;
    assert gap + sign + "" + digits + rest == gap + sign + digits + rest;
    ScanReads(gap, sign, "", digits, rest, 10);
  }

  /** No number is spelled there: no digit, at most a sign. */
  predicate NoNumber(s: string, base: nat) {
    var rest := if s != "" && (s[0] == '+' || s[0] == '-') then s[1..] else s;
    (rest != "" ==> DigitValue(rest[0]) >= base) && (s != "" ==> !IsSpace(s[0]))
  }

  lemma NoNumberIsRead(s: string, base: nat)
    requires (base == 10 || base == 16) && NoNumber(s, base)
    ensures Stoul(s, base) == None && (base == 10 ==> Stoi(s) == None)
  {
    hide Scan;
    if s != "" && (s[0] == '+' || s[0] == '-') {
      assert s == "" + s[..1] + s[1..] && s[..1] == [s[0]];
      ScanFails("", s[..1], s[1..], base);
    } else {
      assert s == "" + "" + s;
      ScanFails("", "", s, base);
    }
  }

  /** `stoul` inverts printing, in both bases and for every digit string, leading zeros and capitals included. */
  lemma StoulOfDigits(s: string, base: nat)
    requires base == 10 || base == 16
    requires |s| > 0 && AllDigits(s, base) && Value(s, base) < U64
    ensures Stoul(s, base) == Some((Value(s, base), |s|))
  {
    assert s[..|s|] == s;
    ScanDigits(s, |s|, base);
  }

  lemma StoulInvertsPrinting(n: nat, base: nat)
    requires n < U64 && (base == 10 || base == 16)
    ensures Stoul(Printed(n, base), base) == Some((n, |Printed(n, base)|))
  {
    PrintedIsNumeral(n, base);
    StoulOfDigits(Printed(n, base), base);
  }
}
