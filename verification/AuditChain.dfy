/**
 The hash chain over audit events and its verification. SHA-256 is a parameter; where a result depends on its strength,
 the alternative is spelled out as a collision between two messages that occur in the lists at hand.
 */
module AuditChain {
  import opened Common
  import opened AuditEvent
  import opened AuditCanonical

  type Hasher = string -> Digest

  const CHAIN_DOMAIN := "compliantai:audit-chain:v1\0"

  datatype Record = Record(sequence: Int64, event: Event, eventHash: Digest)

  /** The hashed message of an event that has a canonical text. */
  function Message(e: Event): Option<string> {
    var text :- Canonical(e);
    Some(CHAIN_DOMAIN + text)
  }

  function EventHash(hash: Hasher, e: Event): Option<Digest> {
    var m :- Message(e);
    Some(hash(m))
  }

  /** The hash that record `i` must name as its predecessor. */
  function PreviousOf(rs: seq<Record>, i: nat): Digest
    requires i <= |rs|
  {
    if i == 0 then ZERO else rs[i - 1].eventHash
  }

  predicate LinkedAt(hash: Hasher, rs: seq<Record>, i: nat)
    requires i < |rs|
  {
    && rs[i].sequence == i + 1
    && rs[i].event.previousHash == PreviousOf(rs, i)
    && EventHash(hash, rs[i].event) == Some(rs[i].eventHash)
  }

  /** What a chain is: numbered from one, each record linked to the one before, each hash that of its own event. */
  predicate ValidChain(hash: Hasher, rs: seq<Record>) {
    forall i :: 0 <= i < |rs| ==> LinkedAt(hash, rs, i)
  }

  predicate FirstBroken(hash: Hasher, rs: seq<Record>, i: nat) {
    i < |rs| && !LinkedAt(hash, rs, i) && forall j :: 0 <= j < i ==> LinkedAt(hash, rs, j)
  }

  /** The reported sequence: the lesser of the position and the number stored there. */
  function ReportAt(rs: seq<Record>, i: nat): int
    requires i < |rs|
  {
    if rs[i].sequence < i + 1 then rs[i].sequence else i + 1
  }

  function VerdictFrom(hash: Hasher, rs: seq<Record>, i: nat): Option<int>
    requires i <= |rs|
    decreases |rs| - i
  {
    if i == |rs| then None
    else if LinkedAt(hash, rs, i) then VerdictFrom(hash, rs, i + 1)
    else Some(ReportAt(rs, i))
  }

  /** None when the chain is accepted, otherwise the sequence that verification reports. */
  function Verdict(hash: Hasher, rs: seq<Record>): Option<int> {
    VerdictFrom(hash, rs, 0)
  }

  method VerifyChain(hash: Hasher, records: seq<Record>) returns (r: Option<int>)
    ensures r == Verdict(hash, records)
  {
    hide EventHash;
    var expectedSequence: int, expectedPrevious := 1, ZERO;
    for i := 0 to |records|
      invariant expectedSequence == i + 1 && expectedPrevious == PreviousOf(records, i)
      invariant Verdict(hash, records) == VerdictFrom(hash, records, i)
    {
      var record := records[i];
      if record.sequence != expectedSequence {
        var affectedSequence: int := expectedSequence;
        if record.sequence < affectedSequence { affectedSequence := record.sequence; }
        return Some(affectedSequence);
      }
      if record.event.previousHash != expectedPrevious { return Some(record.sequence); }
      var computed := EventHash(hash, record.event);
      if computed.None? || computed.value != record.eventHash { return Some(record.sequence); }
      expectedPrevious := record.eventHash;
      expectedSequence := expectedSequence + 1;
    }
    r := None;
  }

  // ---------- what a verdict means ----------

  lemma {:induction false} VerdictFromMeaning(hash: Hasher, rs: seq<Record>, i: nat)
    requires i <= |rs| && forall j :: 0 <= j < i ==> LinkedAt(hash, rs, j)
    ensures VerdictFrom(hash, rs, i).None? <==> ValidChain(hash, rs)
    ensures VerdictFrom(hash, rs, i).Some? ==>
            exists k :: FirstBroken(hash, rs, k) && VerdictFrom(hash, rs, i) == Some(ReportAt(rs, k))
    decreases |rs| - i
  {
    hide LinkedAt;
    if i < |rs| {
      if LinkedAt(hash, rs, i) { VerdictFromMeaning(hash, rs, i + 1); } else { assert FirstBroken(hash, rs, i); }
    }
  }

  /** Verification accepts exactly the valid chains. */
  lemma VerdictIsValidity(hash: Hasher, rs: seq<Record>)
    ensures Verdict(hash, rs).None? <==> ValidChain(hash, rs)
  {
    VerdictFromMeaning(hash, rs, 0);
  }

  /** The first broken record alone decides the report. */
  lemma VerdictAtFirstBroken(hash: Hasher, rs: seq<Record>, k: nat)
    requires FirstBroken(hash, rs, k)
    ensures Verdict(hash, rs) == Some(ReportAt(rs, k))
  {
    hide LinkedAt;
    VerdictFromMeaning(hash, rs, 0);
    var k' :| FirstBroken(hash, rs, k') && Verdict(hash, rs) == Some(ReportAt(rs, k'));
  }

  lemma PrefixValid(hash: Hasher, rs: seq<Record>, n: nat)
    requires n <= |rs| && forall j :: 0 <= j < n ==> LinkedAt(hash, rs, j)
    ensures ValidChain(hash, rs[..n])
  {
    forall j | 0 <= j < n ensures LinkedAt(hash, rs[..n], j) { assert LinkedAt(hash, rs, j); }
  }

  /**
   When sequence s is reported, the list is not a chain and its first s - 1 records are one. A report below one can
   only come from a record that itself carries that number.
   */
  lemma ReportedPrefixIsChain(hash: Hasher, rs: seq<Record>, s: int)
    requires Verdict(hash, rs) == Some(s)
    ensures !ValidChain(hash, rs)
    ensures 1 <= s ==> s <= |rs| && ValidChain(hash, rs[..s - 1])
    ensures s < 1 ==> exists i :: 0 <= i < |rs| && rs[i].sequence == s && ValidChain(hash, rs[..i])
  {
    hide LinkedAt;
    VerdictFromMeaning(hash, rs, 0);
    var k :| FirstBroken(hash, rs, k) && s == ReportAt(rs, k);
    PrefixValid(hash, rs, k);
    if 1 <= s { PrefixValid(hash, rs, s - 1); }
  }

  /** A number below one is reported exactly when the first broken record stores a sequence below one. */
  lemma ReportBelowOneExactly(hash: Hasher, rs: seq<Record>)
    ensures (Verdict(hash, rs).Some? && Verdict(hash, rs).value < 1) <==>
            exists k: nat :: FirstBroken(hash, rs, k) && rs[k].sequence < 1
  {
    hide LinkedAt;
    if k: nat :| FirstBroken(hash, rs, k) && rs[k].sequence < 1 { VerdictAtFirstBroken(hash, rs, k); }
    VerdictFromMeaning(hash, rs, 0);
  }

  /** Such reports occur: a list of one record that stores any sequence below one is reported as that number. */
  lemma ReportBelowOneHappens(hash: Hasher, r: Record)
    requires r.sequence < 1
    ensures Verdict(hash, [r]) == Some(r.sequence)
  {
    hide EventHash;
    assert FirstBroken(hash, [r], 0);
    VerdictAtFirstBroken(hash, [r], 0);
  }

  // ---------- edits, deletions ----------

  /** The two events have different messages with one hash. */
  predicate Collision(hash: Hasher, e: Event, f: Event) {
    Message(e).Some? && Message(f).Some? && Message(e) != Message(f) && hash(Message(e).value) == hash(Message(f).value)
  }

  lemma SameCanonicalSameLink(e: Event, f: Event)
    requires Canonical(e).Some? && Canonical(e) == Canonical(f)
    ensures e.previousHash == f.previousHash
  {
    assert Valid(e) && Valid(f);
    hide Valid, Canonical;
    CanonicalInjective(e, f);
  }

  function Edited(rs: seq<Record>, i: nat, f: Event): (ts: seq<Record>)
    requires i < |rs|
    ensures |ts| == |rs|
  {
    rs[i := rs[i].(event := f)]
  }

  /**
   Replacing one event of a chain while its stored hash stays is reported at exactly that event's sequence, unless the
   replacement has the same canonical text (then nothing is reported) or collides with the original.
   */
  lemma EditIsReported(hash: Hasher, rs: seq<Record>, i: nat, f: Event)
    requires ValidChain(hash, rs) && i < |rs|
    requires !Collision(hash, f, rs[i].event)
    ensures Verdict(hash, Edited(rs, i, f)) == if Canonical(f) == Canonical(rs[i].event) then None else Some(i + 1)
  {
    hide Canonical, LinkedAt, VerdictFrom, Verdict, Message, Collision, Edited;
    var ts := Edited(rs, i, f);
    assert LinkedAt(hash, rs, i);
    OthersStayLinked(hash, rs, i, f);
    EditedLink(hash, rs, i, f);
    if Canonical(f) == Canonical(rs[i].event) {
      VerdictIsValidity(hash, ts);
    } else {
      VerdictAtFirstBroken(hash, ts, i);
    }
  }

  lemma OthersStayLinked(hash: Hasher, rs: seq<Record>, i: nat, f: Event)
    requires ValidChain(hash, rs) && i < |rs|
    ensures var ts := Edited(rs, i, f);
            ts[i].sequence == i + 1 && forall j :: 0 <= j < |ts| && j != i ==> LinkedAt(hash, ts, j)
  {
    hide EventHash;
    var ts := Edited(rs, i, f);
    assert LinkedAt(hash, rs, i);
    forall j | 0 <= j < |ts| && j != i ensures LinkedAt(hash, ts, j) { assert LinkedAt(hash, rs, j); }
  }

  lemma EditedLink(hash: Hasher, rs: seq<Record>, i: nat, f: Event)
    requires i < |rs| && LinkedAt(hash, rs, i)
    requires !Collision(hash, f, rs[i].event)
    ensures LinkedAt(hash, Edited(rs, i, f), i) <==> Canonical(f) == Canonical(rs[i].event)
  {
    hide Canonical;
    var e := rs[i].event;
    if Canonical(f) == Canonical(e) {
      SameCanonicalSameLink(e, f);
    } else if Canonical(f).Some? {
      MessageDetermines(e, f);
    }
  }

  lemma MessageDetermines(e: Event, f: Event)
    requires Canonical(e).Some? && Canonical(f).Some?
    ensures Message(e) == Message(f) <==> Canonical(e) == Canonical(f)
  {
    hide Canonical;
    var n := |CHAIN_DOMAIN|;
    assert Message(e).value[n..] == Canonical(e).value && Message(f).value[n..] == Canonical(f).value;
  }

  /** Deleting a record that is not the last is reported at exactly the missing sequence. */
  lemma DeletionIsReported(hash: Hasher, rs: seq<Record>, i: nat)
    requires ValidChain(hash, rs) && i < |rs| - 1
    ensures Verdict(hash, rs[..i] + rs[i + 1..]) == Some(i + 1)
  {
    hide EventHash;
    var ts := rs[..i] + rs[i + 1..];
    forall j | 0 <= j < i ensures LinkedAt(hash, ts, j) { assert LinkedAt(hash, rs, j); }
    assert LinkedAt(hash, rs, i + 1);
    assert ts[i] == rs[i + 1];
    assert FirstBroken(hash, ts, i);
    VerdictAtFirstBroken(hash, ts, i);
  }

  /** Dropping records from the end leaves a chain: only a checkpoint can tell that they are missing. */
  lemma TruncationIsSilent(hash: Hasher, rs: seq<Record>, n: nat)
    requires ValidChain(hash, rs) && n <= |rs|
    ensures Verdict(hash, rs[..n]) == None
  {
    PrefixValid(hash, rs, n);
    VerdictIsValidity(hash, rs[..n]);
  }

  // ---------- the last hash determines the chain ----------

  predicate SameRecord(a: Record, b: Record) {
    a.sequence == b.sequence && a.eventHash == b.eventHash && Canonical(a.event) == Canonical(b.event)
  }

  predicate SameRecords(rs: seq<Record>, ts: seq<Record>) {
    |rs| == |ts| && forall i :: 0 <= i < |rs| ==> SameRecord(rs[i], ts[i])
  }

  /** Some event of `rs` and some event of `ts` have different messages with one hash. */
  predicate Collide(hash: Hasher, rs: seq<Record>, ts: seq<Record>) {
    exists i, j :: 0 <= i < |rs| && 0 <= j < |ts| && Collision(hash, rs[i].event, ts[j].event)
  }

  lemma EqualHashes(hash: Hasher, e: Event, f: Event)
    requires EventHash(hash, e).Some? && EventHash(hash, e) == EventHash(hash, f)
    requires !Collision(hash, e, f)
    ensures Canonical(e) == Canonical(f) && e.previousHash == f.previousHash
  {
    hide Canonical;
    MessageDetermines(e, f);
    SameCanonicalSameLink(e, f);
  }

  predicate Agree(a: Record, b: Record) { a.eventHash == b.eventHash && Canonical(a.event) == Canonical(b.event) }

  /** Two chains that end in the same hash agree record by record, counted from the end. */
  lemma {:induction false} TailsAgree(hash: Hasher, rs: seq<Record>, ts: seq<Record>, n: nat)
    requires ValidChain(hash, rs) && ValidChain(hash, ts) && n <= |rs| && n <= |ts|
    requires PreviousOf(rs, |rs|) == PreviousOf(ts, |ts|)
    requires !Collide(hash, rs, ts)
    ensures PreviousOf(rs, |rs| - n) == PreviousOf(ts, |ts| - n)
    ensures forall i :: |rs| - n <= i < |rs| ==> Agree(rs[i], ts[i + |ts| - |rs|])
  {
    hide LinkedAt, Agree, Collide;
    if n > 0 {
      TailsAgree(hash, rs, ts, n - 1);
      AgreeAt(hash, rs, ts, |rs| - n, |ts| - n);
    }
  }

  lemma AgreeAt(hash: Hasher, rs: seq<Record>, ts: seq<Record>, i: nat, j: nat)
    requires i < |rs| && j < |ts| && LinkedAt(hash, rs, i) && LinkedAt(hash, ts, j)
    requires rs[i].eventHash == ts[j].eventHash && !Collide(hash, rs, ts)
    ensures Agree(rs[i], ts[j]) && PreviousOf(rs, i) == PreviousOf(ts, j)
  {
    hide Canonical, EventHash, Collision;
    EqualHashes(hash, rs[i].event, ts[j].event);
  }

  /**
   Chains of one length with the same last hash hold the same canonical events, unless two of their messages collide.
   */
  lemma LastHashDeterminesChain(hash: Hasher, rs: seq<Record>, ts: seq<Record>)
    requires ValidChain(hash, rs) && ValidChain(hash, ts) && |rs| == |ts|
    requires PreviousOf(rs, |rs|) == PreviousOf(ts, |ts|)
    ensures SameRecords(rs, ts) || Collide(hash, rs, ts)
  {
    hide Canonical, EventHash, Collide;
    if !Collide(hash, rs, ts) {
      TailsAgree(hash, rs, ts, |rs|);
      forall i | 0 <= i < |rs| ensures SameRecord(rs[i], ts[i]) {
        assert LinkedAt(hash, rs, i) && LinkedAt(hash, ts, i);
        assert Agree(rs[i], ts[i]);
      }
    }
  }

  /** Without the length: the last hash still determines the chain when no stored hash is zero. */
  lemma LastHashDeterminesLength(hash: Hasher, rs: seq<Record>, ts: seq<Record>)
    requires ValidChain(hash, rs) && ValidChain(hash, ts)
    requires PreviousOf(rs, |rs|) == PreviousOf(ts, |ts|)
    requires (forall i :: 0 <= i < |rs| ==> rs[i].eventHash != ZERO)
             && (forall i :: 0 <= i < |ts| ==> ts[i].eventHash != ZERO)
    ensures |rs| == |ts| || Collide(hash, rs, ts)
  {
    hide Collide, LinkedAt;
    if !Collide(hash, rs, ts) { TailsAgree(hash, rs, ts, if |rs| < |ts| then |rs| else |ts|); }
  }

  /** Linking one more event keeps a chain a chain. */
  lemma AppendKeepsChain(hash: Hasher, rs: seq<Record>, r: Record)
    requires ValidChain(hash, rs) && r.sequence == |rs| + 1
    requires r.event.previousHash == PreviousOf(rs, |rs|) && EventHash(hash, r.event) == Some(r.eventHash)
    ensures ValidChain(hash, rs + [r])
  {
    hide EventHash;
    var ts := rs + [r];
    forall i | 0 <= i < |ts| ensures LinkedAt(hash, ts, i) {
      if i < |rs| { assert LinkedAt(hash, rs, i); }
    }
  }

  /** What is hashed: the domain, a zero byte, and the canonical text. */
  lemma MessageLayout(e: Event)
    requires Canonical(e).Some?
    ensures Message(e) == Some("compliantai:audit-chain:v1" + [0 as char] + Canonical(e).value)
  {
    hide Canonical;
    assert CHAIN_DOMAIN == "compliantai:audit-chain:v1" + [0 as char];
  }
}
