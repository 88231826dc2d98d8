/** ASCII character classes. */
module Chars {

  predicate Lower(c: char) { 'a' <= c <= 'z' }
  predicate Upper(c: char) { 'A' <= c <= 'Z' }
  predicate Digit(c: char) { '0' <= c <= '9' }
  predicate HexDigit(c: char) { Digit(c) || 'a' <= c <= 'f' }
  predicate Letter(c: char) { Lower(c) || Upper(c) }
}

/** The fixed string patterns that identifiers, codes and UUIDs must match. */
module Patterns {
  import opened Chars

  /** One character satisfying `first`, then at most `more` satisfying `rest`. */
  predicate Shape(s: string, first: char -> bool, rest: char -> bool, more: nat) {
    1 <= |s| <= more + 1 && first(s[0]) && forall i :: 1 <= i < |s| ==> rest(s[i])
  }

  predicate UuidChar(i: nat, c: char) { if i in {8, 13, 18, 23} then c == '-' else HexDigit(c) }

  predicate IsUuid(s: string) { |s| == 36 && forall i :: 0 <= i < 36 ==> UuidChar(i, s[i]) }

  predicate IdentifierChar(c: char) { Letter(c) || Digit(c) || c in "._:/@+-" }
  predicate CodeChar(c: char) { Lower(c) || Digit(c) || c == '_' }
  predicate NameChar(c: char) { Letter(c) || Digit(c) || c in "._:-" }
  predicate GroupChar(c: char) { Letter(c) || Digit(c) || c in "._:/-" }
  predicate EndpointChar(c: char) { Lower(c) || Digit(c) || c in "_." }
  predicate Alnum(c: char) { Letter(c) || Digit(c) }

  predicate IsIdentifier(s: string) { Shape(s, Alnum, IdentifierChar, 127) }
  predicate IsCode(s: string) { Shape(s, Lower, CodeChar, 63) }
  predicate IsVersion(s: string) { Shape(s, Alnum, NameChar, 63) }
  predicate IsRuleId(s: string) { Shape(s, Alnum, NameChar, 63) }
  predicate IsGroup(s: string) { Shape(s, Alnum, GroupChar, 127) }
  predicate IsEndpoint(s: string) { Shape(s, Lower, EndpointChar, 63) }
  predicate IsModel(s: string) { Shape(s, Alnum, NameChar, 127) }

  // ---------- alphabets and lengths ----------

  const LOWER := "abcdefghijklmnopqrstuvwxyz"
  const UPPER := "ABCDEFGHIJKLMNOPQRSTUVWXYZ"
  const DIGITS := "0123456789"

  lemma LowerExactly(c: char)
    ensures Lower(c) <==> c in LOWER
  {
    if 'a' <= c <= 'z' { assert LOWER[c as int - 'a' as int] == c; }
  }

  lemma UpperExactly(c: char)
    ensures Upper(c) <==> c in UPPER
  {
    if 'A' <= c <= 'Z' { assert UPPER[c as int - 'A' as int] == c; }
  }

  lemma DigitsExactly(c: char)
    ensures Digit(c) <==> c in DIGITS
  {
    if '0' <= c <= '9' { assert DIGITS[c as int - '0' as int] == c; }
  }

  predicate AsciiAlnum(c: char) { c in LOWER || c in UPPER || c in DIGITS }

  lemma AlnumExactly(c: char)
    ensures Alnum(c) <==> AsciiAlnum(c)
  {
    hide Lower, Upper, Digit;
    LowerExactly(c);
    UpperExactly(c);
    DigitsExactly(c);
  }

  /** Identifiers: a letter or digit, then up to 127 letters, digits or one of seven marks. */
  lemma IdentifiersExactly(s: string)
    ensures IsIdentifier(s) <==>
            && 1 <= |s| <= 128 && AsciiAlnum(s[0])
            && forall i :: 1 <= i < |s| ==> AsciiAlnum(s[i]) || s[i] in "._:/@+-"
  {
    forall c ensures Alnum(c) <==> AsciiAlnum(c) { AlnumExactly(c); }
    hide Letter, Digit, AsciiAlnum;
  }

  /** Group names: the same, with five marks. */
  lemma GroupsExactly(s: string)
    ensures IsGroup(s) <==>
            && 1 <= |s| <= 128 && AsciiAlnum(s[0])
            && forall i :: 1 <= i < |s| ==> AsciiAlnum(s[i]) || s[i] in "._:/-"
  {
    forall c ensures Alnum(c) <==> AsciiAlnum(c) { AlnumExactly(c); }
    hide Letter, Digit, AsciiAlnum;
  }

  /** Model names, versions and rule ids: four marks, and 128 or 64 characters. */
  lemma NamesExactly(s: string)
    ensures IsModel(s) <==>
            && 1 <= |s| <= 128 && AsciiAlnum(s[0])
            && forall i :: 1 <= i < |s| ==> AsciiAlnum(s[i]) || s[i] in "._:-"
    ensures IsVersion(s) <==> IsModel(s) && |s| <= 64
    ensures IsRuleId(s) <==> IsModel(s) && |s| <= 64
  {
    forall c ensures Alnum(c) <==> AsciiAlnum(c) { AlnumExactly(c); }
    hide Letter, Digit, AsciiAlnum;
  }

  /** Codes: a lower-case letter, then up to 63 lower-case letters, digits or underscores; endpoints also take dots. */
  lemma CodesExactly(s: string)
    ensures IsCode(s) <==>
            && 1 <= |s| <= 64 && s[0] in LOWER
            && forall i :: 1 <= i < |s| ==> s[i] in LOWER || s[i] in DIGITS || s[i] == '_'
    ensures IsEndpoint(s) <==>
            && 1 <= |s| <= 64 && s[0] in LOWER
            && forall i :: 1 <= i < |s| ==> s[i] in LOWER || s[i] in DIGITS || s[i] == '_' || s[i] == '.'
  {
    hide Lower, Digit, LOWER, DIGITS;
    forall c ensures (Lower(c) <==> c in LOWER) && (Digit(c) <==> c in DIGITS) { LowerExactly(c); DigitsExactly(c); }
  }

  /** UUIDs: eight, four, four, four and twelve lower-case hexadecimal digits between hyphens. */
  lemma UuidsExactly(s: string)
    ensures IsUuid(s) <==> && |s| == 36 && s[8] == '-' && s[13] == '-' && s[18] == '-' && s[23] == '-'
                           && AllHex(s[..8]) && AllHex(s[9..13]) && AllHex(s[14..18]) && AllHex(s[19..23])
                              && AllHex(s[24..])
  {
    if |s| == 36 {
      if AllHex(s[..8]) && AllHex(s[9..13]) && AllHex(s[14..18]) && AllHex(s[19..23]) && AllHex(s[24..]) {
        forall i | 0 <= i < 36 && i !in {8, 13, 18, 23} ensures HexDigit(s[i]) {
          if i < 8 { assert s[i] == s[..8][i]; }
          else if i < 13 { assert s[i] == s[9..13][i - 9]; }
          else if i < 18 { assert s[i] == s[14..18][i - 14]; }
          else if i < 23 { assert s[i] == s[19..23][i - 19]; }
          else { assert s[i] == s[24..][i - 24]; }
        }
      }
      if IsUuid(s) { assert UuidChar(8, s[8]) && UuidChar(13, s[13]) && UuidChar(18, s[18]) && UuidChar(23, s[23]); }
    }
  }

  predicate AllHex(s: string) { forall i :: 0 <= i < |s| ==> s[i] in "0123456789abcdef" }
}
