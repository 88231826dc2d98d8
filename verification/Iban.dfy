/**
 IBAN detection: check digits by system MOD 97-10 of ISO/IEC 7064 as ISO 13616 uses it, and the greedy scan over
 compacted text.
 */
module Iban {
  import opened Common
  import opened Chars
  import Patterns

  // ---------- the checksum ----------

  /** The decimal digits that stand for one character: itself, or 10 to 35 for a letter. */
  function Digits(c: char): (d: seq<nat>)
    requires Digit(c) || Upper(c)
    ensures |d| == if Digit(c) then 1 else 2
    ensures forall i :: 0 <= i < |d| ==> d[i] <= 9
  {
    if Digit(c) then [c as int - '0' as int]
    else
      var v := c as int - 'A' as int + 10;
      [v / 10, v % 10]
  }

  predicate Alnum(s: string) { forall i :: 0 <= i < |s| ==> Digit(s[i]) || Upper(s[i]) }

  function Expand(s: string): seq<nat>
    requires Alnum(s)
  {
    if s == [] then [] else Expand(s[..|s| - 1]) + Digits(s[|s| - 1])
  }

  /** The number that a digit string denotes. */
  function Value(digits: seq<nat>): nat {
    if digits == [] then 0 else Value(digits[..|digits| - 1]) * 10 + digits[|digits| - 1]
  }

  /** Streaming remainder: the loop never builds the number. */
  method Mod97(digits: seq<nat>) returns (rem: nat)
    ensures rem == Value(digits) % 97
  {
    rem := 0;
    for i := 0 to |digits|
      invariant rem == Value(digits[..i]) % 97
    {
      assert digits[..i + 1][..i] == digits[..i];
      StreamStep(Value(digits[..i]), digits[i]);
      rem := (rem * 10 + digits[i]) % 97;
    }
    assert digits[..|digits|] == digits;
  }

  lemma StreamStep(v: nat, d: nat)
    ensures (v % 97 * 10 + d) % 97 == (v * 10 + d) % 97
  {
    var q, r := v / 97, v % 97;
    SameRemainder(v * 10 + d, r * 10 + d, q * 10);
  }

  lemma SameRemainder(a: int, b: int, k: int)
    requires a == b + 97 * k
    ensures a % 97 == b % 97
  {
  }

  function CountryLength(s: string): nat {
    if |s| < 2 then 0 else if s[..2] == "DE" then 22 else if s[..2] == "AT" then 20 else 0
  }

  predicate LooksLikeIban(s: string) {
    && 15 <= |s| <= 34
    && Upper(s[0]) && Upper(s[1]) && Digit(s[2]) && Digit(s[3])
    && Alnum(s)
  }

  method CheckShape(s: string) returns (ok: bool)
    ensures ok <==> LooksLikeIban(s)
  {
    if |s| < 15 || |s| > 34 { return false; }
    if s[0] < 'A' || s[0] > 'Z' || s[1] < 'A' || s[1] > 'Z' { return false; }
    if s[2] < '0' || s[2] > '9' || s[3] < '0' || s[3] > '9' { return false; }
    for i := 4 to |s|
      invariant forall j :: 4 <= j < i ==> Digit(s[j]) || Upper(s[j])
    {
      if (s[i] < '0' || s[i] > '9') && (s[i] < 'A' || s[i] > 'Z') { return false; }
    }
    ok := true;
  }

  function Rearranged(s: string): string
    requires |s| >= 4
  {
    s[4..] + s[..4]
  }

  predicate ValidIban(s: string) {
    && LooksLikeIban(s)
    && (CountryLength(s) != 0 ==> |s| == CountryLength(s))
    && Value(Expand(Rearranged(s))) % 97 == 1
  }

  lemma RearrangedAlnum(s: string)
    requires LooksLikeIban(s)
    ensures |s| >= 4 && Alnum(Rearranged(s))
  {
  }

  lemma ExpandNext(s: string, i: nat)
    requires Alnum(s) && i < |s|
    ensures Alnum(s[..i]) && Alnum(s[..i + 1]) && (Digit(s[i]) || Upper(s[i]))
    ensures Expand(s[..i + 1]) == Expand(s[..i]) + Digits(s[i])
  {
    assert s[..i + 1][..i] == s[..i];
  }

  lemma NothingExpands()
    ensures Alnum([]) && Expand([]) == []
  {
  }

  lemma DigitsWritten(c: char)
    requires Digit(c) || Upper(c)
    ensures Digits(c) ==
            if Digit(c) then [c as int - '0' as int]
            else [(c as int - 'A' as int + 10) / 10, (c as int - 'A' as int + 10) % 10]
  {
  }

  method CheckIban(s: string) returns (ok: bool)
    ensures ok <==> ValidIban(s)
  {
    var shaped := CheckShape(s);
    if !shaped { return false; }
    RearrangedAlnum(s);
    hide LooksLikeIban, Rearranged, CountryLength, Expand, Digits, Value, Alnum;
    if CountryLength(s) != 0 && |s| != CountryLength(s) { return false; }
    var rearranged := Rearranged(s);
    var numeric: seq<nat> := [];
    NothingExpands();
    assert rearranged[..0] == [];
    for i := 0 to |rearranged|
      invariant Alnum(rearranged[..i]) && numeric == Expand(rearranged[..i])
    {
      var c := rearranged[i];
      ExpandNext(rearranged, i);
      DigitsWritten(c);
      if Digit(c) {
        numeric := numeric + [c as int - '0' as int];
      } else {
        var val := c as int - 'A' as int + 10;
        numeric := numeric + [val / 10, val % 10];
      }
    }
    assert rearranged[..|rearranged|] == rearranged;
    var rem := Mod97(numeric);
    ok := rem == 1;
  }

  // ---------- single errors are always detected ----------

  lemma Distribute(x: int, p: int, v: int, d: int)
    ensures (x * p + v) * 10 + d == x * (10 * p) + (v * 10 + d)
  {
  }

  lemma {:induction false} ValueConcat(a: seq<nat>, b: seq<nat>)
    ensures Value(a + b) == Value(a) * Pow10(|b|) + Value(b)
  {
    if b == [] {
      assert a + b == a;
    } else {
      var n := |b| - 1;
      assert (a + b)[..|a + b| - 1] == a + b[..n];
      ValueConcat(a, b[..n]);
      Distribute(Value(a), Pow10(n), Value(b[..n]), b[n]);
    }
  }

  lemma {:induction false} ExpandConcat(a: string, b: string)
    requires Alnum(a) && Alnum(b)
    ensures Alnum(a + b) && Expand(a + b) == Expand(a) + Expand(b)
  {
    if b == [] {
      assert a + b == a;
    } else {
      var n := |b| - 1;
      assert (a + b)[..|a + b| - 1] == a + b[..n];
      ExpandConcat(a, b[..n]);
      assert Expand(a) + (Expand(b[..n]) + Digits(b[n])) == Expand(a) + Expand(b[..n]) + Digits(b[n]);
    }
  }

  /** 10 is invertible modulo 97: its inverse is 68. */
  lemma InverseOfTen(x: int, q: int)
    requires 10 * x == 97 * q
    ensures x % 97 == 0
  {
    assert x == 97 * (68 * q - 7 * x);
  }

  lemma TimesTenKeepsNonzero(x: int)
    requires x % 97 != 0
    ensures (10 * x) % 97 != 0
  {
    if (10 * x) % 97 == 0 {
      InverseOfTen(x, 10 * x / 97);
      assert false;
    }
  }

  lemma {:induction false} ShiftKeepsNonzero(d: int, n: nat)
    requires d % 97 != 0
    ensures (d * Pow10(n)) % 97 != 0
  {
    if n > 0 {
      ShiftKeepsNonzero(d, n - 1);
      TimesTenKeepsNonzero(d * Pow10(n - 1));
      assert d * Pow10(n) == 10 * (d * Pow10(n - 1));
    }
  }

  /**
   Replacing a block by one of the same width whose value differs by `d` changes the number by `d` times a power of
   ten.
   */
  lemma BlockChangesRemainder(x: seq<nat>, u: seq<nat>, v: seq<nat>, y: seq<nat>)
    requires |u| == |v| && (Value(u) - Value(v)) % 97 != 0
    ensures Value(x + u + y) % 97 != Value(x + v + y) % 97
  {
    hide Value, Pow10;
    ValueConcat(x + u, y);
    ValueConcat(x + v, y);
    ValueConcat(x, u);
    ValueConcat(x, v);
    Difference(Value(x) * Pow10(|u|), Value(u), Value(v), Pow10(|y|), Value(y));
    ShiftKeepsNonzero(Value(u) - Value(v), |y|);
    if Value(x + u + y) % 97 == Value(x + v + y) % 97 {
      EqualRemainders(Value(x + u + y), Value(x + v + y));
      assert false;
    }
  }

  lemma Difference(x: int, u: int, v: int, p: int, y: int)
    ensures ((x + u) * p + y) - ((x + v) * p + y) == (u - v) * p
  {
  }

  lemma EqualRemainders(a: int, b: int)
    requires a % 97 == b % 97
    ensures (a - b) % 97 == 0
  {
  }

  predicate SameClass(c: char, d: char) { (Digit(c) && Digit(d)) || (Upper(c) && Upper(d)) }

  lemma DigitsDiffer(c: char, d: char)
    requires SameClass(c, d) && c != d
    ensures |Digits(c)| == |Digits(d)| && (Value(Digits(c)) - Value(Digits(d))) % 97 != 0
  {
    if Upper(c) {
      assert Digits(c)[..1] == [Digits(c)[0]] && Digits(d)[..1] == [Digits(d)[0]];
      assert Value(Digits(c)) == c as int - 'A' as int + 10;
      assert Value(Digits(d)) == d as int - 'A' as int + 10;
    }
  }

  /** Where position `i` of the IBAN lands when the first four characters move to the end. */
  function Landing(s: string, i: nat): nat
    requires |s| >= 4 && i < |s|
  {
    if i >= 4 then i - 4 else |s| - 4 + i
  }

  lemma RearrangedUpdate(s: string, i: nat, c: char)
    requires |s| >= 4 && i < |s|
    ensures Rearranged(s[i := c]) == Rearranged(s)[Landing(s, i) := c]
  {
  }

  lemma PairLands(s: string, i: nat)
    requires |s| >= 4 && i + 1 < |s| && (i >= 4 || i == 2)
    ensures var r, k := Rearranged(s), Landing(s, i);
            Landing(s, i + 1) == k + 1 && k + 1 < |r| == |s| && r[k] == s[i] && r[k + 1] == s[i + 1]
  {
  }

  lemma PairSwapped(r: string, k: nat)
    requires k + 1 < |r|
    ensures var r' := r[k := r[k + 1]][k + 1 := r[k]];
            && r[k..k + 2] == [r[k], r[k + 1]] && r'[k..k + 2] == [r[k + 1], r[k]]
            && r'[..k] == r[..k] && r'[k + 2..] == r[k + 2..]
  {
  }

  lemma NineTimes(d: int)
    requires -9 <= d <= 9 && d != 0
    ensures (9 * d) % 97 != 0
  {
  }

  lemma SplitAround(r: string, k: nat, w: nat)
    requires Alnum(r) && k + w <= |r|
    ensures Alnum(r[..k]) && Alnum(r[k..k + w]) && Alnum(r[k + w..])
    ensures Expand(r) == Expand(r[..k]) + Expand(r[k..k + w]) + Expand(r[k + w..])
  {
    hide Expand;
    ExpandConcat(r[..k], r[k..k + w]);
    ExpandConcat(r[..k] + r[k..k + w], r[k + w..]);
    assert r[..k] + r[k..k + w] + r[k + w..] == r;
  }

  /** Changing one digit of a valid IBAN to another digit, or one letter to another letter, makes it invalid. */
  lemma SubstitutionIsDetected(s: string, i: nat, c: char)
    requires ValidIban(s) && i < |s| && SameClass(s[i], c) && c != s[i]
    ensures !ValidIban(s[i := c])
  {
    hide Expand, Value, Digits;
    var r, k := Rearranged(s), Landing(s, i);
    var r' := r[k := c];
    RearrangedUpdate(s, i, c);
    SplitAround(r, k, 1);
    SplitAround(r', k, 1);
    assert r'[..k] == r[..k] && r'[k + 1..] == r[k + 1..] && r'[k..k + 1] == [c] && r[k..k + 1] == [s[i]];
    SingleExpand(c);
    SingleExpand(s[i]);
    DigitsDiffer(s[i], c);
    BlockChangesRemainder(Expand(r[..k]), Digits(s[i]), Digits(c), Expand(r[k + 1..]));
  }

  lemma SingleExpand(c: char)
    requires Digit(c) || Upper(c)
    ensures Expand([c]) == Digits(c)
  {
    assert [c][..0] == [];
  }

  lemma PairExpand(c: char, d: char)
    requires Digit(c) && Digit(d)
    ensures Expand([c, d]) == Digits(c) + Digits(d)
    ensures |Digits(c) + Digits(d)| == 2 && Value(Digits(c) + Digits(d)) == 10 * (c as int - '0' as int)
            + (d as int - '0' as int)
  {
    assert [c, d][..1] == [c];
    SingleExpand(c);
    ValueConcat(Digits(c), Digits(d));
    assert Pow10(1) == 10;
  }

  /**
   Swapping two different neighbouring digits, in the account part or in the check digits, makes a valid IBAN invalid.
   */
  lemma TranspositionIsDetected(s: string, i: nat)
    requires ValidIban(s) && i + 1 < |s| && (i >= 4 || i == 2)
    requires Digit(s[i]) && Digit(s[i + 1]) && s[i] != s[i + 1]
    ensures !ValidIban(s[i := s[i + 1]][i + 1 := s[i]])
  {
    hide Expand, Value, Digits;
    var a, b := s[i], s[i + 1];
    var s' := s[i := b][i + 1 := a];
    var r, k := Rearranged(s), Landing(s, i);
    var r' := r[k := b][k + 1 := a];
    RearrangedUpdate(s, i, b);
    RearrangedUpdate(s[i := b], i + 1, a);
    PairLands(s, i);
    PairSwapped(r, k);
    SplitAround(r, k, 2);
    SplitAround(r', k, 2);
    PairExpand(a, b);
    PairExpand(b, a);
    var d := a as int - b as int;
    assert Value(Digits(a) + Digits(b)) - Value(Digits(b) + Digits(a)) == 9 * d;
    NineTimes(d);
    BlockChangesRemainder(Expand(r[..k]), Digits(a) + Digits(b), Digits(b) + Digits(a), Expand(r[k + 2..]));
  }

  // ---------- the scan ----------

  /** A DE or AT window of the right length starts at `i` and is a valid IBAN. */
  predicate IbanAt(text: string, i: int) {
    && 0 <= i && i + 4 <= |text|
    && CountryLength(text[i..]) != 0
    && i + CountryLength(text[i..]) <= |text|
    && ValidIban(text[i..i + CountryLength(text[i..])])
  }

  /** Where the window that starts at `i` ends. */
  function EndOf(text: string, i: nat): nat {
    if i <= |text| then i + CountryLength(text[i..]) else i
  }

  lemma IbanStarts(text: string, i: nat)
    requires i + 4 <= |text|
    ensures var n := CountryLength(text[i..]);
            EndOf(text, i) == i + n && (IbanAt(text, i) <==> n != 0 && i + n <= |text| && ValidIban(text[i..i + n]))
  {
    hide ValidIban, CountryLength;
  }

  lemma IbanInside(text: string, i: int)
    requires IbanAt(text, i)
    ensures 0 <= i && i + 4 <= |text|
  {
    hide ValidIban;
  }

  predicate Covered(text: string, hits: seq<nat>, j: int) {
    exists h :: 0 <= h < |hits| && hits[h] <= j < EndOf(text, hits[h])
  }

  lemma StillCovered(text: string, hits: seq<nat>, i: nat, j: int)
    requires Covered(text, hits, j) || i <= j < EndOf(text, i)
    ensures Covered(text, hits + [i], j)
  {
    var more := hits + [i];
    if Covered(text, hits, j) {
      var h :| 0 <= h < |hits| && hits[h] <= j < EndOf(text, hits[h]);
      assert more[h] == hits[h];
    } else {
      assert more[|hits|] == i;
    }
  }

  /**
   Left to right, jumping past each hit. The counted windows are valid and disjoint, and every valid window, counted or
   not, starts inside a counted one.
   */
  method ScanIbans(text: string) returns (hits: seq<nat>)
    ensures forall h :: 0 <= h < |hits| ==> IbanAt(text, hits[h])
    ensures forall g, h :: 0 <= g < h < |hits| ==> EndOf(text, hits[g]) <= hits[h]
    ensures forall j :: IbanAt(text, j) ==> Covered(text, hits, j)
  {
    hide ValidIban, IbanAt, EndOf, Covered, CountryLength;
    hits := [];
    var i := 0;
    while i + 4 <= |text|
      invariant 0 <= i <= |text|
      invariant forall h :: 0 <= h < |hits| ==> IbanAt(text, hits[h]) && EndOf(text, hits[h]) <= i
      invariant forall g, h :: 0 <= g < h < |hits| ==> EndOf(text, hits[g]) <= hits[h]
      invariant forall j :: 0 <= j < i && IbanAt(text, j) ==> Covered(text, hits, j)
    {
      var length := CountryLength(text[i..]);
      IbanStarts(text, i);
      if length == 0 || i + length > |text| {
        i := i + 1;
        continue;
      }
      var candidate := text[i..i + length];
      var ok := CheckIban(candidate);
      if ok {
        forall j | 0 <= j < i + length && IbanAt(text, j) ensures Covered(text, hits + [i], j) {
          StillCovered(text, hits, i, j);
        }
        hits := hits + [i];
        i := i + length;
        continue;
      }
      i := i + 1;
    }
    forall j | IbanAt(text, j) ensures Covered(text, hits, j) { IbanInside(text, j); }
  }

  // ---------- compaction ----------

  function Kept(c: char): string {
    if Lower(c) then [(c as int - 'a' as int + 'A' as int) as char]
    else if Upper(c) || Digit(c) then [c]
    else []
  }

  function Compact(text: string): string {
    if text == [] then [] else Compact(text[..|text| - 1]) + Kept(text[|text| - 1])
  }

  method CompactAlnumUpper(text: string) returns (out: string)
    ensures out == Compact(text) && Alnum(out)
  {
    out := [];
    for i := 0 to |text|
      invariant out == Compact(text[..i]) && Alnum(out)
    {
      assert text[..i + 1][..i] == text[..i];
      var c := text[i];
      if Lower(c) {
        out := out + [(c as int - 'a' as int + 'A' as int) as char];
      } else if Upper(c) || Digit(c) {
        out := out + [c];
      }
    }
    assert text[..|text|] == text;
  }

  lemma {:induction false} CompactConcat(a: string, b: string)
    ensures Compact(a + b) == Compact(a) + Compact(b)
  {
    if b == [] {
      assert a + b == a;
    } else {
      var n := |b| - 1;
      assert (a + b)[..|a + b| - 1] == a + b[..n];
      CompactConcat(a, b[..n]);
    }
  }

  /** Separators anywhere in the text change nothing that the scan sees. */
  lemma {:induction false} SeparatorsDoNotMatter(a: string, separators: string, b: string)
    requires forall i :: 0 <= i < |separators| ==> Kept(separators[i]) == []
    ensures Compact(a + separators + b) == Compact(a + b)
  {
    CompactConcat(a + separators, b);
    CompactConcat(a, separators);
    CompactConcat(a, b);
    NothingKept(separators);
  }

  lemma {:induction false} NothingKept(separators: string)
    requires forall i :: 0 <= i < |separators| ==> Kept(separators[i]) == []
    ensures Compact(separators) == []
  {
    if separators != [] {
      NothingKept(separators[..|separators| - 1]);
    }
  }

  // ---------- known values ----------

  /** A digit stands for itself, and the letters A to Z for 10 to 35. */
  lemma DigitsDenote(c: char)
    requires Digit(c) || Upper(c)
    ensures Value(Digits(c)) == if Digit(c) then c as int - '0' as int else c as int - 'A' as int + 10
  {
    var d := Digits(c);
    assert Value([]) == 0 && d[..0] == [];
    if Upper(c) {
      assert d[..1][..0] == [] && Value(d[..1]) == d[0];
    } else {
      assert Value(d) == Value(d[..0]) * 10 + d[0];
    }
  }

  /** One more character: the remainder is multiplied by ten or, for a letter, by a hundred, and the value added. */
  lemma NextChar(s: string, c: char, m: nat, n: nat)
    requires Alnum(s) && (Digit(c) || Upper(c)) && Value(Expand(s)) % 97 == m
    requires n == if Digit(c) then (m * 10 + (c as int - '0' as int)) % 97
             else (m * 100 + (c as int - 'A' as int + 10)) % 97
    ensures Alnum(s + [c]) && Value(Expand(s + [c])) % 97 == n
  {
    hide Expand, Value, Digits;
    SingleExpand(c);
    ExpandConcat(s, [c]);
    ValueConcat(Expand(s), Digits(c));
    DigitsDenote(c);
    PowersOfTen();
    var v := Value(Expand(s));
    var q := v / 97;
    if Digit(c) {
      SameRemainder(v * 10 + Value(Digits(c)), m * 10 + Value(Digits(c)), q * 10);
    } else {
      SameRemainder(v * 100 + Value(Digits(c)), m * 100 + Value(Digits(c)), q * 100);
    }
  }

  lemma Extend(s: string, c: char, m: nat, n: nat) returns (t: string)
    requires Alnum(s) && (Digit(c) || Upper(c)) && Value(Expand(s)) % 97 == m
    requires n == if Digit(c) then (m * 10 + (c as int - '0' as int)) % 97
             else (m * 100 + (c as int - 'A' as int + 10)) % 97
    ensures t == s + [c] && Alnum(t) && Value(Expand(t)) % 97 == n
  {
    NextChar(s, c, m, n);
    t := s + [c];
  }

  lemma PowersOfTen()
    ensures Pow10(1) == 10 && Pow10(2) == 100
  {
    assert Pow10(1) == 10;
  }

  lemma GermanHalf()
    ensures Alnum("37040044053") && Value(Expand("37040044053")) % 97 == 25
  {
    hide Alnum, Value, Expand;
    EmptyString();
    var s := "";
    s := Extend(s, '3', 0, 3);
    s := Extend(s, '7', 3, 37);
    s := Extend(s, '0', 37, 79);
    s := Extend(s, '4', 79, 18);
    s := Extend(s, '0', 18, 83);
    s := Extend(s, '0', 83, 54);
    s := Extend(s, '4', 54, 59);
    s := Extend(s, '4', 59, 12);
    s := Extend(s, '0', 12, 23);
    s := Extend(s, '5', 23, 41);
    s := Extend(s, '3', 41, 25);
    assert s == "37040044053";
  }

  lemma GermanRest()
    ensures Alnum("370400440532013000DE89") && Value(Expand("370400440532013000DE89")) % 97 == 1
  {
    hide Alnum, Value, Expand;
    GermanHalf();
    var s := "37040044053";
    s := Extend(s, '2', 25, 58);
    s := Extend(s, '0', 58, 95);
    s := Extend(s, '1', 95, 78);
    s := Extend(s, '3', 78, 7);
    s := Extend(s, '0', 7, 70);
    s := Extend(s, '0', 70, 21);
    s := Extend(s, '0', 21, 16);
    s := Extend(s, 'D', 16, 61);
    s := Extend(s, 'E', 61, 3);
    s := Extend(s, '8', 3, 38);
    s := Extend(s, '9', 38, 1);
    assert s == "370400440532013000DE89";
  }

  /** A published sample number of that country is valid. */
  lemma GermanSample()
    ensures ValidIban("DE89370400440532013000")
  {
    hide Alnum, Value, Expand, LooksLikeIban, CountryLength, Rearranged;
    GermanShape();
    GermanRest();
    GermanMoved();
  }

  lemma GermanMoved()
    ensures Rearranged("DE89370400440532013000") == "370400440532013000DE89"
  {
  }

  lemma GermanShape()
    ensures LooksLikeIban("DE89370400440532013000") && CountryLength("DE89370400440532013000") == 22
  {
    var s := "DE89370400440532013000";
    assert s[..2] == "DE";
  }

  lemma AustrianHalf()
    ensures Alnum("1904300234") && Value(Expand("1904300234")) % 97 == 17
  {
    hide Alnum, Value, Expand;
    EmptyString();
    var s := "";
    s := Extend(s, '1', 0, 1);
    s := Extend(s, '9', 1, 19);
    s := Extend(s, '0', 19, 93);
    s := Extend(s, '4', 93, 61);
    s := Extend(s, '3', 61, 31);
    s := Extend(s, '0', 31, 19);
    s := Extend(s, '0', 19, 93);
    s := Extend(s, '2', 93, 59);
    s := Extend(s, '3', 59, 11);
    s := Extend(s, '4', 11, 17);
    assert s == "1904300234";
  }

  lemma AustrianRest()
    ensures Alnum("1904300234573201AT61") && Value(Expand("1904300234573201AT61")) % 97 == 1
  {
    hide Alnum, Value, Expand;
    AustrianHalf();
    var s := "1904300234";
    s := Extend(s, '5', 17, 78);
    s := Extend(s, '7', 78, 11);
    s := Extend(s, '3', 11, 16);
    s := Extend(s, '2', 16, 65);
    s := Extend(s, '0', 65, 68);
    s := Extend(s, '1', 68, 2);
    s := Extend(s, 'A', 2, 16);
    s := Extend(s, 'T', 16, 77);
    s := Extend(s, '6', 77, 0);
    s := Extend(s, '1', 0, 1);
    assert s == "1904300234573201AT61";
  }

  /** A published sample number of that country is valid. */
  lemma AustrianSample()
    ensures ValidIban("AT611904300234573201")
  {
    hide Alnum, Value, Expand, LooksLikeIban, CountryLength, Rearranged;
    AustrianShape();
    AustrianRest();
    AustrianMoved();
  }

  lemma AustrianMoved()
    ensures Rearranged("AT611904300234573201") == "1904300234573201AT61"
  {
  }

  lemma AustrianShape()
    ensures LooksLikeIban("AT611904300234573201") && CountryLength("AT611904300234573201") == 20
  {
    var s := "AT611904300234573201";
    assert s[..2] == "AT";
  }

  lemma EmptyString()
    ensures Alnum("") && Value(Expand("")) % 97 == 0
  {
  }

  /** The shape: two capital letters, two digits, then capital letters and digits, 15 to 34 characters in all. */
  lemma ShapeExactly(s: string)
    ensures LooksLikeIban(s) <==>
            && 14 < |s| < 35 && s[0] in Patterns.UPPER && s[1] in Patterns.UPPER
            && s[2] in Patterns.DIGITS && s[3] in Patterns.DIGITS
            && forall i :: 4 <= i < |s| ==> s[i] in Patterns.UPPER || s[i] in Patterns.DIGITS
  {
    hide Upper, Digit, Patterns.UPPER, Patterns.DIGITS;
    forall c ensures (Upper(c) <==> c in Patterns.UPPER) && (Digit(c) <==> c in Patterns.DIGITS) {
      Patterns.UpperExactly(c);
      Patterns.DigitsExactly(c);
    }
  }
}
