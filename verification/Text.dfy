/** Textual forms inside audit JSON: decimal numbers, hexadecimal digests, base64 signatures and RFC 3339 timestamps. */
module Text {
  import opened Common
  import opened Chars

  // ---------- decimal ----------

  predicate AllDigits(s: string) { forall i :: 0 <= i < |s| ==> Digit(s[i]) }

  function DigitChar(n: nat): (c: char)
    requires n < 10
    ensures Digit(c) && c as int - '0' as int == n
  {
    (n + '0' as int) as char
  }

  function DigitValue(c: char): nat
    requires Digit(c)
  {
    c as int - '0' as int
  }

  function NatText(n: nat): (s: string)
    ensures |s| >= 1 && AllDigits(s)
  {
    if n < 10 then [DigitChar(n)] else NatText(n / 10) + [DigitChar(n % 10)]
  }

  function NatValue(s: string): nat
    requires AllDigits(s)
  {
    if s == [] then 0 else NatValue(s[..|s| - 1]) * 10 + DigitValue(s[|s| - 1])
  }

  lemma {:induction false} NatRoundTrip(n: nat)
    ensures NatValue(NatText(n)) == n
  {
    if n >= 10 {
      NatRoundTrip(n / 10);
      assert NatText(n)[..|NatText(n)| - 1] == NatText(n / 10);
    } else {
      assert NatText(n)[..0] == [];
    }
  }

  lemma OneMoreDigit(s: string, d: nat)
    requires AllDigits(s) && d < 10
    ensures AllDigits(s + [DigitChar(d)]) && NatValue(s + [DigitChar(d)]) == NatValue(s) * 10 + d
  {
    assert (s + [DigitChar(d)])[..|s|] == s;
  }

  /** Exactly `w` digits. */
  function Pad(n: nat, w: nat): (s: string)
    ensures |s| == w && AllDigits(s)
  {
    if w == 0 then [] else Pad(n / 10, w - 1) + [DigitChar(n % 10)]
  }

  lemma {:induction false} PadRoundTrip(n: nat, w: nat)
    requires n < Pow10(w)
    ensures NatValue(Pad(n, w)) == n
  {
    if w > 0 {
      hide AllDigits, NatValue;
      PadRoundTrip(n / 10, w - 1);
      OneMoreDigit(Pad(n / 10, w - 1), n % 10);
    }
  }

  /** The digits after the point of `m` / 10^`w`, without trailing zeros. */
  function Fraction(m: nat, w: nat): (s: string)
    requires m < Pow10(w)
    ensures AllDigits(s) && |s| <= w && (s == [] <==> m == 0)
  {
    if m == 0 then []
    else
      var p := Pow10(w - 1);
      LeadingDigit(m, p);
      [DigitChar(m / p)] + Fraction(m % p, w - 1)
  }

  lemma LeadingDigit(m: nat, p: nat)
    requires p > 0 && m < 10 * p
    ensures 0 <= m / p < 10 && m == m / p * p + m % p
  {
    var q := m / p;
    if q >= 10 {
      Tenfold(q, p);
      assert false;
    }
  }

  lemma Tenfold(q: int, p: int)
    requires q >= 10 && p >= 0
    ensures q * p >= 10 * p
  {
  }

  function FractionValue(s: string, w: nat): nat
    requires AllDigits(s) && |s| <= w
  {
    if s == [] then 0 else DigitValue(s[0]) * Pow10(w - 1) + FractionValue(s[1..], w - 1)
  }

  lemma {:induction false} FractionRoundTrip(m: nat, w: nat)
    requires m < Pow10(w)
    ensures FractionValue(Fraction(m, w), w) == m
  {
    if m != 0 {
      var p := Pow10(w - 1);
      LeadingDigit(m, p);
      FractionRoundTrip(m % p, w - 1);
      assert Fraction(m, w)[1..] == Fraction(m % p, w - 1);
    }
  }

  // ---------- hexadecimal ----------

  function HexChar(n: nat): (c: char)
    requires n < 16
    ensures HexDigit(c)
  {
    if n < 10 then (n + '0' as int) as char else (n - 10 + 'a' as int) as char
  }

  function HexValue(c: char): (n: nat)
    requires HexDigit(c)
    ensures n < 16 && HexChar(n) == c
  {
    if Digit(c) then c as int - '0' as int else c as int - 'a' as int + 10
  }

  function Hex(d: seq<Byte>): (s: string)
    ensures |s| == 2 * |d| && forall i :: 0 <= i < |s| ==> HexDigit(s[i])
  {
    if d == [] then [] else [HexChar(d[0] / 16), HexChar(d[0] % 16)] + Hex(d[1..])
  }

  /** Decoding accepts lower-case pairs only, as the comparison with the re-encoded text demands. */
  function Unhex(s: string): (r: Option<seq<Byte>>)
    ensures r.Some? ==> Hex(r.value) == s
  {
    if s == [] then Some([])
    else if |s| == 1 || !HexDigit(s[0]) || !HexDigit(s[1]) then None
    else
      var rest :- Unhex(s[2..]);
      assert s == [s[0], s[1]] + s[2..];
      var b: Byte := HexValue(s[0]) * 16 + HexValue(s[1]);
      assert ([b] + rest)[1..] == rest;
      Some([b] + rest)
  }

  lemma {:induction false} HexRoundTrip(d: seq<Byte>)
    ensures Unhex(Hex(d)) == Some(d)
  {
    if d != [] {
      HexRoundTrip(d[1..]);
      assert Hex(d)[2..] == Hex(d[1..]);
      assert d == [d[0]] + d[1..];
    }
  }

  // ---------- base64 with padding ----------

  predicate Base64Digit(c: char) { 'A' <= c <= 'Z' || 'a' <= c <= 'z' || Digit(c) || c == '+' || c == '/' }

  function Base64Char(n: nat): (c: char)
    requires n < 64
    ensures Base64Digit(c)
  {
    if n < 26 then (n + 'A' as int) as char
    else if n < 52 then (n - 26 + 'a' as int) as char
    else if n < 62 then (n - 52 + '0' as int) as char
    else if n == 62 then '+' else '/'
  }

  function Base64Value(c: char): (n: nat)
    requires Base64Digit(c)
    ensures n < 64 && Base64Char(n) == c
  {
    if 'A' <= c <= 'Z' then c as int - 'A' as int
    else if 'a' <= c <= 'z' then c as int - 'a' as int + 26
    else if Digit(c) then c as int - '0' as int + 52
    else if c == '+' then 62 else 63
  }

  lemma Base64CharRoundTrip(n: nat)
    requires n < 64
    ensures Base64Value(Base64Char(n)) == n
  {
  }

  /** Three bytes as one number. */
  function Word(a: int, b: int, c: int): (n: nat)
    requires 0 <= a < 256 && 0 <= b < 256 && 0 <= c < 256
    ensures n < 0x100_0000
  {
    (a * 256 + b) * 256 + c
  }

  function Group(n: nat): (s: string)
    requires n < 0x100_0000
    ensures |s| == 4 && AllBase64(s)
  {
    [Base64Char(n / 64 / 64 / 64), Base64Char(n / 64 / 64 % 64), Base64Char(n / 64 % 64), Base64Char(n % 64)]
  }

  predicate AllBase64(s: string) { forall i :: 0 <= i < |s| ==> Base64Digit(s[i]) }

  function GroupValue(s: string): (n: nat)
    requires |s| == 4 && AllBase64(s)
    ensures n < 0x100_0000
  {
    ((Base64Value(s[0]) * 64 + Base64Value(s[1])) * 64 + Base64Value(s[2])) * 64 + Base64Value(s[3])
  }

  lemma GroupRoundTrip(n: nat)
    requires n < 0x100_0000
    ensures GroupValue(Group(n)) == n
  {
    hide Base64Value, Base64Char;
    Base64CharRoundTrip(n / 64 / 64 / 64);
    Base64CharRoundTrip(n / 64 / 64 % 64);
    Base64CharRoundTrip(n / 64 % 64);
    Base64CharRoundTrip(n % 64);
  }

  function Base64(d: seq<Byte>): string {
    if d == [] then []
    else if |d| == 1 then Group(Word(d[0], 0, 0))[..2] + "=="
    else if |d| == 2 then Group(Word(d[0], d[1], 0))[..3] + "="
    else Group(Word(d[0], d[1], d[2])) + Base64(d[3..])
  }

  lemma {:induction false} Base64Shape(d: seq<Byte>)
    ensures forall i :: 0 <= i < |Base64(d)| ==> Base64Digit(Base64(d)[i]) || Base64(d)[i] == '='
  {
    hide Group, Word, Base64Digit;
    if |d| >= 3 { Base64Shape(d[3..]); }
  }

  /** The bytes of a 24-bit group. */
  function Three(n: nat): seq<Byte>
    requires n < 0x100_0000
  {
    [n / 256 / 256, n / 256 % 256, n % 256]
  }

  lemma ThreeOfWord(a: Byte, b: Byte, c: Byte)
    ensures Three(Word(a, b, c)) == [a, b, c]
  {
    var x: int, y: int, z: int := a, b, c;
    Base256(x * 256 + y, z);
    Base256(x, y);
  }

  lemma Base256(q: int, r: int)
    requires 0 <= r < 256
    ensures (q * 256 + r) / 256 == q && (q * 256 + r) % 256 == r
  {
  }

  function Unbase64(s: string): Option<seq<Byte>> {
    if s == [] then Some([])
    else if |s| < 4 then None
    else if |s| == 4 && s[2..] == "==" && AllBase64(s[..2]) then Some(Three(GroupValue(s[..2] + "AA"))[..1])
    else if |s| == 4 && s[3] == '=' && AllBase64(s[..3]) then Some(Three(GroupValue(s[..3] + "A"))[..2])
    else if !AllBase64(s[..4]) then None
    else
      var rest :- Unbase64(s[4..]);
      Some(Three(GroupValue(s[..4])) + rest)
  }

  lemma LowBitsZero(a: Byte, b: Byte)
    ensures Word(a, 0, 0) % 64 == 0 && Word(a, 0, 0) / 64 % 64 == 0 && Word(a, b, 0) % 64 == 0
  {
    var x: int, y: int := a, b;
    assert Word(a, 0, 0) == 64 * (1024 * x) && Word(a, b, 0) == 64 * (1024 * x + 4 * y);
    assert 1024 * x == 64 * (16 * x);
  }

  lemma PartialGroups(a: Byte, b: Byte)
    ensures Group(Word(a, 0, 0))[..2] + "AA" == Group(Word(a, 0, 0))
    ensures Group(Word(a, b, 0))[..3] + "A" == Group(Word(a, b, 0))
  {
    assert Base64Char(0) == 'A';
    LowBitsZero(a, b);
  }

  lemma {:induction false} Base64RoundTrip(d: seq<Byte>)
    ensures Unbase64(Base64(d)) == Some(d)
  {
    hide Group, GroupValue, Word, Three;
    if |d| == 1 {
      PartialGroups(d[0], 0);
      GroupRoundTrip(Word(d[0], 0, 0));
      ThreeOfWord(d[0], 0, 0);
      assert Base64(d)[..2] == Group(Word(d[0], 0, 0))[..2] && Base64(d)[2..] == "==";
      assert [d[0], 0, 0][..1] == d;
    } else if |d| == 2 {
      PartialGroups(d[0], d[1]);
      GroupRoundTrip(Word(d[0], d[1], 0));
      ThreeOfWord(d[0], d[1], 0);
      assert Base64(d)[..3] == Group(Word(d[0], d[1], 0))[..3] && Base64Digit(Base64(d)[2]) && Base64(d)[2..][0] != '=';
      assert [d[0], d[1], 0][..2] == d;
    } else if |d| >= 3 {
      GroupRoundTrip(Word(d[0], d[1], d[2]));
      ThreeOfWord(d[0], d[1], d[2]);
      Base64RoundTrip(d[3..]);
      assert Base64(d)[..4] == Group(Word(d[0], d[1], d[2])) && Base64(d)[4..] == Base64(d[3..]);
      assert Base64Digit(Base64(d)[3]) && Base64Digit(Base64(d)[2]);
      assert |Base64(d)| == 4 ==> Base64(d)[2..][0] != '=';
      assert d == [d[0], d[1], d[2]] + d[3..];
    }
  }

  // ---------- timestamps (section 5.6 of RFC 3339, UTC) ----------

  datatype Time = Time(year: nat, month: nat, day: nat, hour: nat, minute: nat, second: nat, nano: nat)

  predicate Leap(year: nat) { year % 4 == 0 && (year % 100 != 0 || year % 400 == 0) }

  function DaysIn(year: nat, month: nat): nat {
    if month == 2 then (if Leap(year) then 29 else 28)
    else if month in {4, 6, 9, 11} then 30 else 31
  }

  /** A UTC instant with a four-digit year. */
  predicate Civil(t: Time) {
    && t.year <= 9999 && 1 <= t.month <= 12 && 1 <= t.day <= DaysIn(t.year, t.month)
    && t.hour <= 23 && t.minute <= 59 && t.second <= 59 && t.nano < 1_000_000_000
  }

  lemma Powers()
    ensures Pow10(2) == 100 && Pow10(4) == 10_000 && Pow10(9) == 1_000_000_000
  {
    assert Pow10(1) == 10 && Pow10(3) == 1000 && Pow10(5) == 100_000 && Pow10(6) == 1_000_000 && Pow10(7) == 10_000_000
           && Pow10(8) == 100_000_000;
  }

  function Seconds(t: Time): (s: string)
    ensures |s| == 19
  {
    Pad(t.year, 4) + "-" + Pad(t.month, 2) + "-" + Pad(t.day, 2) + "T" +
    Pad(t.hour, 2) + ":" + Pad(t.minute, 2) + ":" + Pad(t.second, 2)
  }

  function FormatTime(t: Time): string
    requires t.nano < 1_000_000_000
  {
    Powers();
    Seconds(t) + (if t.nano == 0 then [] else "." + Fraction(t.nano, 9)) + "Z"
  }

  predicate SecondsShape(s: string) {
    && |s| == 19
    && AllDigits(s[..4]) && s[4] == '-' && AllDigits(s[5..7]) && s[7] == '-' && AllDigits(s[8..10]) && s[10] == 'T'
    && AllDigits(s[11..13]) && s[13] == ':' && AllDigits(s[14..16]) && s[16] == ':' && AllDigits(s[17..])
  }

  function ParseTime(s: string): Option<Time> {
    if |s| < 20 || s[|s| - 1] != 'Z' || !SecondsShape(s[..19]) then None
    else
      var head, f := s[..19], s[19..|s| - 1];
      if f != [] && (f[0] != '.' || !(2 <= |f| <= 10) || !AllDigits(f[1..])) then None
      else
        var nano := if f == [] then 0 else FractionValue(f[1..], 9);
        var t := Time(NatValue(head[..4]), NatValue(head[5..7]), NatValue(head[8..10]), NatValue(head[11..13]),
                      NatValue(head[14..16]),
                      NatValue(head[17..]), nano);
        if Civil(t) && FormatTime(t) == s then Some(t) else None
  }

  lemma SecondsParts(y: string, mo: string, d: string, h: string, mi: string, se: string)
    requires |y| == 4 && |mo| == |d| == |h| == |mi| == |se| == 2
    ensures var s := y + "-" + mo + "-" + d + "T" + h + ":" + mi + ":" + se;
            && |s| == 19 && s[4] == '-' && s[7] == '-' && s[10] == 'T' && s[13] == ':' && s[16] == ':'
            && s[..4] == y && s[5..7] == mo && s[8..10] == d && s[11..13] == h && s[14..16] == mi && s[17..] == se
  {
    var s := y + "-" + mo + "-" + d + "T" + h + ":" + mi + ":" + se;
    assert s[5] == mo[0] && s[6] == mo[1] && s[8] == d[0] && s[9] == d[1] && s[11] == h[0] && s[12] == h[1];
    assert s[14] == mi[0] && s[15] == mi[1] && s[17] == se[0] && s[18] == se[1];
  }

  lemma SecondsRoundTrip(t: Time)
    requires Civil(t)
    ensures var s := Seconds(t);
            && SecondsShape(s)
            && NatValue(s[..4]) == t.year && NatValue(s[5..7]) == t.month && NatValue(s[8..10]) == t.day
            && NatValue(s[11..13]) == t.hour && NatValue(s[14..16]) == t.minute && NatValue(s[17..]) == t.second
  {
    hide Pad, NatValue, Pow10;
    Powers();
    PadRoundTrip(t.year, 4);
    PadRoundTrip(t.month, 2);
    PadRoundTrip(t.day, 2);
    PadRoundTrip(t.hour, 2);
    PadRoundTrip(t.minute, 2);
    PadRoundTrip(t.second, 2);
    SecondsParts(Pad(t.year, 4), Pad(t.month, 2), Pad(t.day, 2), Pad(t.hour, 2), Pad(t.minute, 2), Pad(t.second, 2));
  }

  lemma TimeRoundTrip(t: Time)
    requires Civil(t)
    ensures ParseTime(FormatTime(t)) == Some(t)
  {
    hide Seconds, Pad, NatValue, Fraction, FractionValue;
    Powers();
    SecondsRoundTrip(t);
    FractionRoundTrip(t.nano, 9);
    var s, head := FormatTime(t), Seconds(t);
    assert s[..19] == head && s[|s| - 1] == 'Z';
    var f := s[19..|s| - 1];
    if t.nano != 0 {
      assert f == "." + Fraction(t.nano, 9) && f[1..] == Fraction(t.nano, 9);
      assert FractionValue(f[1..], 9) == t.nano;
    } else {
      assert f == [];
    }
    assert t == Time(NatValue(head[..4]), NatValue(head[5..7]), NatValue(head[8..10]), NatValue(head[11..13]),
                     NatValue(head[14..16]),
                     NatValue(head[17..]), if f == [] then 0 else FractionValue(f[1..], 9));
  }

  // ---------- known values ----------

  lemma HexSample()
    ensures Hex([0, 16, 171, 255]) == "0010abff"
  {
    assert Hex([255]) == "ff" && Hex([171, 255]) == "abff" && Hex([16, 171, 255]) == "10abff";
  }

  lemma GroupSample()
    ensures Group(Word(102, 111, 111)) == "Zm9v" && Group(Word(98, 97, 0)) == "YmEA"
            && Group(Word(251, 239, 255)) == "++//"
  {
    assert Word(102, 111, 111) == 6713199 && Word(98, 97, 0) == 6447360 && Word(251, 239, 255) == 16510975;
    assert Base64Char(25) == 'Z' && Base64Char(38) == 'm' && Base64Char(61) == '9' && Base64Char(47) == 'v';
    assert Base64Char(24) == 'Y' && Base64Char(4) == 'E' && Base64Char(0) == 'A' && Base64Char(62) == '+'
           && Base64Char(63) == '/';
  }

  /** One of the vectors in section 10 of RFC 4648, and the two characters that are neither letters nor digits. */
  lemma Base64Sample()
    ensures Base64([102, 111, 111, 98, 97]) == "Zm9vYmE=" && Base64([251, 239, 255]) == "++//"
  {
    hide Group, Word;
    GroupSample();
    var d: seq<Byte> := [102, 111, 111, 98, 97];
    assert d[3..] == [98, 97];
    assert Base64([98, 97]) == "YmE=";
    var e: seq<Byte> := [251, 239, 255];
    assert e[3..] == [];
  }

  lemma PadSample(tens: nat, ones: nat)
    requires tens < 10 && ones < 10
    ensures Pad(10 * tens + ones, 2) == [DigitChar(tens), DigitChar(ones)]
  {
    hide Pad, AllDigits, DigitChar;
    TwoDigits(tens, ones);
    TwoDigits(0, tens);
    PadUnfolds(tens, 1);
    PadUnfolds(10 * tens + ones, 2);
  }

  lemma PadUnfolds(n: nat, w: nat)
    requires w > 0
    ensures Pad(n, w) == Pad(n / 10, w - 1) + [DigitChar(n % 10)]
  {
  }

  lemma TwoDigits(tens: nat, ones: nat)
    requires ones < 10
    ensures (10 * tens + ones) / 10 == tens && (10 * tens + ones) % 10 == ones
  {
  }

  lemma YearSample()
    ensures Pad(2026, 4) == "2026"
  {
    assert Pad(2, 1) == "2" && Pad(20, 2) == "20" && Pad(202, 3) == "202";
  }

  lemma FractionSample()
    ensures Pow10(9) == 1_000_000_000 && Fraction(60_000, 9) == "00006"
  {
    Powers();
    assert Pow10(8) == 100_000_000 && Pow10(7) == 10_000_000 && Pow10(6) == 1_000_000 && Pow10(5) == 100_000;
    assert Pow10(4) == 10_000;
    FractionZero(60_000, 9);
    FractionZero(60_000, 8);
    FractionZero(60_000, 7);
    FractionZero(60_000, 6);
    assert Fraction(60_000, 5) == [DigitChar(6)] + Fraction(0, 4);
  }

  lemma FractionZero(m: nat, w: nat)
    requires 0 < w && 0 < m < Pow10(w - 1)
    ensures m < Pow10(w) && Fraction(m, w) == "0" + Fraction(m, w - 1)
  {
    Below(m, Pow10(w - 1));
  }

  lemma Below(m: nat, p: nat)
    requires m < p
    ensures m / p == 0 && m % p == m
  {
  }

  lemma SecondsSample()
    ensures Seconds(Time(2026, 1, 23, 14, 5, 36, 60_000)) == "2026-01-23T14:05:36"
  {
    hide Pad;
    YearSample();
    PadSample(0, 1);
    PadSample(2, 3);
    PadSample(1, 4);
    PadSample(0, 5);
    PadSample(3, 6);
  }

  lemma TimeSample()
    ensures FormatTime(Time(2026, 1, 23, 14, 5, 36, 60_000)) == "2026-01-23T14:05:36.00006Z"
  {
    hide Seconds, Fraction;
    SecondsSample();
    FractionSample();
  }

  /** Every fourth year is a leap year, except for centuries, except for every fourth century. */
  lemma LeapYears(century: nat, y: nat)
    requires y < 100
    ensures Leap(100 * century + y) <==> if y == 0 then century % 4 == 0 else y % 4 == 0
  {
    var year := 100 * century + y;
    Hundred(century, y);
    if y == 0 { FourHundred(century); }
  }

  lemma Hundred(q: int, r: int)
    requires 0 <= r < 100
    ensures (100 * q + r) % 100 == r && (100 * q + r) % 4 == r % 4
  {
    assert 100 * q + r == 4 * (25 * q) + r;
  }

  lemma FourHundred(q: int)
    ensures (100 * q) % 400 == 0 <==> q % 4 == 0
  {
    var a, b := q / 4, q % 4;
    assert 100 * q == 400 * a + 100 * b;
  }

  /** Months have the lengths of the Gregorian calendar. */
  lemma MonthLengths(year: nat, month: nat)
    requires 1 <= month <= 12
    ensures DaysIn(year, month) == [31, if Leap(year) then 29 else 28, 31, 30, 31, 30, 31, 31, 30, 31, 30,
                                    31][month - 1]
  {
    hide Leap;
  }
}
