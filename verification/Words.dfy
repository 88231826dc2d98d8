/** Whole-word search for health indicator terms over lower-cased text bytes. */
module Words {
  import opened Common

  predicate IsWordChar(b: Byte) {
    (97 <= b <= 122) || (48 <= b <= 57) || b == 95 || b >= 0x80
  }

  /** `term` occurs in `text` at `i`. */
  predicate OccursAt(text: seq<Byte>, term: seq<Byte>, i: int) {
    0 <= i && i + |term| <= |text| && text[i..i + |term|] == term
  }

  /** ... and is bounded on both sides by the ends of the text or by bytes that are not part of a word. */
  predicate WordAt(text: seq<Byte>, term: seq<Byte>, i: int) {
    && OccursAt(text, term, i)
    && (i == 0 || !IsWordChar(text[i - 1]))
    && (i + |term| == |text| || !IsWordChar(text[i + |term|]))
  }

  /** The first occurrence at or after `start`, or -1. */
  function FirstFrom(text: seq<Byte>, term: seq<Byte>, start: nat): (i: int)
    ensures i == -1 ==> forall j :: start <= j ==> !OccursAt(text, term, j)
    ensures i != -1 ==> start <= i && i + |term| <= |text| && OccursAt(text, term, i) && forall j :: start <= j < i ==>
            !OccursAt(text, term, j)
    decreases |text| - start
  {
    if start + |term| > |text| then -1
    else if text[start..start + |term|] == term then start
    else FirstFrom(text, term, start + 1)
  }

  /** The search that jumps past a whole failed match. */
  predicate Search(text: seq<Byte>, term: seq<Byte>, start: nat)
    requires |term| > 0 && start <= |text|
    decreases |text| - start
  {
    var i := FirstFrom(text, term, start);
    i != -1 && (WordAt(text, term, i) || Search(text, term, i + |term|))
  }

  /** An empty term is excluded because the source's loop need not end on it. */
  method ContainsWord(text: seq<Byte>, term: seq<Byte>) returns (found: bool)
    requires |term| > 0
    ensures found == Search(text, term, 0)
    ensures JumpIsSafe(term) ==> (found <==> exists i :: WordAt(text, term, i))
  {
    hide JumpIsSafe, FirstFrom, IsWordChar, OccursAt;
    if JumpIsSafe(term) { SearchIsExact(text, term); }
    var start := 0;
    while true
      invariant 0 <= start <= |text|
      invariant Search(text, term, 0) == Search(text, term, start)
      decreases |text| - start
    {
      var abs := FirstFrom(text, term, start);
      if abs < 0 { return false; }
      var beforeOk := abs == 0 || !IsWordChar(text[abs - 1]);
      var after := abs + |term|;
      var afterOk := after == |text| || !IsWordChar(text[after]);
      if beforeOk && afterOk { return true; }
      start := after;
    }
  }

  // ---------- when the jump misses nothing ----------

  /** Wherever the term overlaps a later copy of itself, that copy follows a word byte. */
  predicate JumpIsSafe(term: seq<Byte>) {
    forall p :: 0 < p < |term| && term[p..] == term[..|term| - p] ==> IsWordChar(term[p - 1])
  }

  predicate AllWordChars(term: seq<Byte>) { forall i :: 0 <= i < |term| ==> IsWordChar(term[i]) }

  lemma WordTermsAreSafe(term: seq<Byte>)
    requires AllWordChars(term)
    ensures JumpIsSafe(term)
  {
  }

  /** An occurrence that begins inside another one follows a word byte, so it is no whole word. */
  lemma NoWordInsideOccurrence(text: seq<Byte>, term: seq<Byte>, i: int, j: int)
    requires JumpIsSafe(term) && OccursAt(text, term, i) && i < j < i + |term|
    ensures !WordAt(text, term, j)
  {
    if OccursAt(text, term, j) {
      var p := j - i;
      assert term[p..] == text[j..i + |term|] == text[j..j + |term|][..|term| - p] == term[..|term| - p];
      assert text[j - 1] == text[i..i + |term|][p - 1] == term[p - 1];
    }
  }

  lemma {:induction false} SearchFromIsExact(text: seq<Byte>, term: seq<Byte>, start: nat)
    requires |term| > 0 && JumpIsSafe(term) && start <= |text|
    ensures Search(text, term, start) <==> exists j :: start <= j && WordAt(text, term, j)
    decreases |text| - start
  {
    hide JumpIsSafe, FirstFrom, IsWordChar;
    var i := FirstFrom(text, term, start);
    if i != -1 && !WordAt(text, term, i) {
      SearchFromIsExact(text, term, i + |term|);
      forall j | start <= j < i + |term| ensures !WordAt(text, term, j) {
        if j > i { NoWordInsideOccurrence(text, term, i, j); }
      }
    }
  }

  lemma SearchIsExact(text: seq<Byte>, term: seq<Byte>)
    requires |term| > 0 && JumpIsSafe(term)
    ensures Search(text, term, 0) <==> exists i :: WordAt(text, term, i)
  {
    hide JumpIsSafe;
    SearchFromIsExact(text, term, 0);
    assert forall i :: WordAt(text, term, i) ==> 0 <= i;
  }

  /** A text on which the search misses a whole word: a word byte, the term, and the rest of its overlapping copy. */
  lemma UnsafeTermIsMissed(term: seq<Byte>, p: nat) returns (text: seq<Byte>)
    requires 0 < p < |term| && term[p..] == term[..|term| - p] && !IsWordChar(term[p - 1])
    ensures !Search(text, term, 0) && WordAt(text, term, p + 1)
  {
    var w: Byte := if term[0] == 97 then 98 else 97;
    var n := |term|;
    text := [w] + term + term[n - p..];
    assert text[1..1 + n] == term;
    assert text[0] != term[0];
    assert text[0..n][0] == w;
    assert !OccursAt(text, term, 0);
    assert FirstFrom(text, term, 0) == 1;
    assert !WordAt(text, term, 1);
    assert FirstFrom(text, term, 1 + n) == -1;
    assert text[p + 1..p + 1 + n] == term by {
      assert text[p + 1..n + 1] == term[p..];
      assert text[n + 1..n + 1 + p] == term[n - p..];
      assert text[p + 1..p + 1 + n] == text[p + 1..n + 1] + text[n + 1..n + 1 + p];
      assert term == term[..n - p] + term[n - p..];
    }
    assert text[p] == term[p - 1];
  }

  /** The search finds exactly the whole words of every text if and only if the term is safe to jump past. */
  lemma JumpIsSafeExactly(term: seq<Byte>)
    requires |term| > 0
    ensures JumpIsSafe(term) <==> forall text :: Search(text, term, 0) <==> exists i :: WordAt(text, term, i)
  {
    if JumpIsSafe(term) {
      forall text ensures Search(text, term, 0) <==> exists i :: WordAt(text, term, i) { SearchIsExact(text, term); }
    } else {
      var p :| 0 < p < |term| && term[p..] == term[..|term| - p] && !IsWordChar(term[p - 1]);
      var text := UnsafeTermIsMissed(term, p);
      assert !(Search(text, term, 0) <==> exists i :: WordAt(text, term, i));
    }
  }

  // ---------- the indicator terms ----------

  method ContainsAnyWord(text: seq<Byte>, terms: seq<seq<Byte>>) returns (found: bool)
    requires forall t :: t in terms ==> |t| > 0
    ensures (forall t :: t in terms ==> JumpIsSafe(t)) ==> (found <==> exists t, i :: t in terms && WordAt(text, t, i))
    ensures found <==> exists t :: t in terms && Search(text, t, 0)
  {
    hide JumpIsSafe, WordAt;
    for n := 0 to |terms|
      invariant forall m :: 0 <= m < n ==> !Search(text, terms[m], 0)
      invariant (forall t :: t in terms ==> JumpIsSafe(t)) ==> forall m, i :: 0 <= m < n ==> !WordAt(text, terms[m], i)
    {
      found := ContainsWord(text, terms[n]);
      if found {
        assert terms[n] in terms && Search(text, terms[n], 0);
        if JumpIsSafe(terms[n]) {
          ghost var i :| WordAt(text, terms[n], i);
          assert terms[n] in terms && WordAt(text, terms[n], i);
        }
        return;
      }
    }
    found := false;
  }

  const DIAGNOSIS_TERMS := [
    "diagnosis", "diagnose", "diabetes", "hypertonie", "hypertension", "depression", "asthma", "migraene", "migraine"]

  const MEDICATION_TERMS := [
    "medication", "medikation", "prescription", "rezept", "metformin", "bisoprolol", "insulin", "ibuprofen",
    "amoxicillin"]

  function Bytes(s: string): seq<Byte>
    requires Lowercase(s)
  {
    seq(|s|, i requires 0 <= i < |s| => s[i] as int)
  }

  predicate Lowercase(s: string) { forall i :: 0 <= i < |s| ==> 'a' <= s[i] <= 'z' }

  /** Non-empty lower-case terms. */
  predicate LowercaseTerms(terms: seq<string>) {
    forall n :: 0 <= n < |terms| ==> terms[n] != [] && Lowercase(terms[n])
  }

  lemma DiagnosisTermsAreLowercase()
    ensures LowercaseTerms(DIAGNOSIS_TERMS)
  {
  }

  lemma MedicationTermsAreLowercase()
    ensures LowercaseTerms(MEDICATION_TERMS)
  {
  }

  function BytesOf(terms: seq<string>): (bs: seq<seq<Byte>>)
    requires LowercaseTerms(terms)
    ensures |bs| == |terms| && forall n :: 0 <= n < |terms| ==> bs[n] == Bytes(terms[n])
  {
    seq(|terms|, n requires 0 <= n < |terms| => Bytes(terms[n]))
  }

  /** Some listed term stands in the text as a whole word. */
  predicate HasWord(text: seq<Byte>, terms: seq<string>)
    requires LowercaseTerms(terms)
  {
    exists n, i :: 0 <= n < |terms| && 0 <= i <= |text| && WordAt(text, Bytes(terms[n]), i)
  }

  lemma LowercaseIsSafe(s: string)
    requires s != [] && Lowercase(s)
    ensures |Bytes(s)| > 0 && JumpIsSafe(Bytes(s))
  {
    WordTermsAreSafe(Bytes(s));
  }

  method ContainsTerm(text: seq<Byte>, terms: seq<string>) returns (found: bool)
    requires LowercaseTerms(terms)
    ensures found <==> HasWord(text, terms)
  {
    hide JumpIsSafe, WordAt, Search, LowercaseTerms;
    var bs := BytesOf(terms);
    forall t | t in bs ensures |t| > 0 && JumpIsSafe(t) {
      var n :| 0 <= n < |bs| && bs[n] == t;
      TermAt(terms, n);
      LowercaseIsSafe(terms[n]);
    }
    found := ContainsAnyWord(text, bs);
    if found {
      ghost var t, i :| t in bs && WordAt(text, t, i);
      ghost var n :| 0 <= n < |bs| && bs[n] == t;
      WordInside(text, t, i);
      TermAt(terms, n);
      assert WordAt(text, Bytes(terms[n]), i);
    }
  }

  lemma TermAt(terms: seq<string>, n: nat)
    requires LowercaseTerms(terms) && n < |terms|
    ensures terms[n] != [] && Lowercase(terms[n])
  {
  }

  lemma WordInside(text: seq<Byte>, term: seq<Byte>, i: int)
    requires WordAt(text, term, i)
    ensures 0 <= i <= |text|
  {
  }

  /** Each indicator is raised exactly when one of its terms stands in the text as a whole word. */
  method HealthIndicators(lower: seq<Byte>) returns (diagnosis: bool, medication: bool)
    ensures LowercaseTerms(DIAGNOSIS_TERMS) && (diagnosis <==> HasWord(lower, DIAGNOSIS_TERMS))
    ensures LowercaseTerms(MEDICATION_TERMS) && (medication <==> HasWord(lower, MEDICATION_TERMS))
  {
    hide LowercaseTerms, HasWord;
    DiagnosisTermsAreLowercase();
    MedicationTermsAreLowercase();
    diagnosis := ContainsTerm(lower, DIAGNOSIS_TERMS);
    medication := ContainsTerm(lower, MEDICATION_TERMS);
  }

  // ---------- word bytes ----------

  const WORD_CHARS := "abcdefghijklmnopqrstuvwxyz0123456789_"

  /**
   In ASCII, exactly the lower-case letters, the digits and the underscore belong to words; outside it every byte does.
   */
  lemma WordCharsExactly(b: Byte)
    ensures IsWordChar(b) <==> b >= 128 || exists i :: 0 <= i < |WORD_CHARS| && WORD_CHARS[i] as int == b
  {
    if 97 <= b <= 122 { assert WORD_CHARS[b - 97] as int == b; }
    if 48 <= b <= 57 { assert WORD_CHARS[26 + b - 48] as int == b; }
    if b == 95 { assert WORD_CHARS[36] as int == b; }
  }
}
