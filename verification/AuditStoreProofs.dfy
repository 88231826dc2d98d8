/** What every interleaving of appends, rollbacks and checkpoint writes keeps. */
module AuditStoreProofs {
  import opened Common
  import opened Text
  import opened AuditEvent
  import opened AuditChain
  import opened AuditExport
  import opened AuditExportProofs
  import opened AuditStore
  import Patterns
  import Sorting

  // ---------- the invariant ----------

  /** Row `r` may follow the committed rows. */
  predicate NextRow(hash: Hasher, rows: seq<Record>, e: Event, r: Record) {
    && r.sequence == |rows| + 1
    && r.event == e.(previousHash := PreviousOf(rows, |rows|))
    && EventHash(hash, r.event) == Some(r.eventHash)
    && r.eventHash != ZERO && !Taken(e.eventId, rows)
  }

  /** The receipt names a committed row, and that row holds the submitted event linked to its predecessor. */
  predicate ReceiptOk(rows: seq<Record>, e: Event, receipt: Receipt) {
    && 1 <= receipt.sequence <= |rows|
    && var row := rows[receipt.sequence - 1];
       && row.eventHash == receipt.eventHash
       && row.event == e.(previousHash := PreviousOf(rows, receipt.sequence - 1))
       && (receipt.backendAuthorized <==> e.eventType == "run_started")
  }

  predicate TxOk(hash: Hasher, s: Store, i: nat)
    requires i < |s.txs|
  {
    match s.txs[i]
    case Begun(e) => Acceptable(e) && s.lock != Some(i)
    case Locked(e, head) => Acceptable(e) && s.lock == Some(i) && head == s.head
    case Inserted(e, row) => Acceptable(e) && s.lock == Some(i) && NextRow(hash, s.events, e, row)
    case Committed(e, receipt) => s.lock != Some(i) && ReceiptOk(s.events, e, receipt)
    case Failed => s.lock != Some(i)
  }

  predicate Receipted(s: Store, sequence: int) {
    exists i :: 0 <= i < |s.txs| && s.txs[i].Committed? && s.txs[i].receipt.sequence == sequence
  }

  /** No two committed appends share a row, and every row belongs to one. */
  predicate ReceiptsDistinct(s: Store) {
    && (forall i, j :: 0 <= i < j < |s.txs| && s.txs[i].Committed? && s.txs[j].Committed? ==>
          s.txs[i].receipt.sequence != s.txs[j].receipt.sequence)
    && forall n :: 1 <= n <= |s.events| ==> Receipted(s, n)
  }

  predicate HeadOk(s: Store) { s.head.sequence == |s.events| && s.head.eventHash == PreviousOf(s.events, |s.events|) }

  predicate RowsOk(rows: seq<Record>) {
    && (forall k :: 0 <= k < |rows| ==> rows[k].eventHash != ZERO)
    && forall j, k :: 0 <= j < k < |rows| ==> rows[j].event.eventId != rows[k].event.eventId
  }

  predicate CheckpointOk(rows: seq<Record>, n: int, c: Checkpoint) {
    && 1 <= n <= |rows| && c.sequence == n && c.headHash == rows[n - 1].eventHash
    && |c.signature| == SIGNATURE_SIZE && ValidPayload(c)
  }

  predicate CheckpointsOk(s: Store) { forall n :: n in s.checkpoints ==> CheckpointOk(s.events, n, s.checkpoints[n]) }

  predicate TxsOk(hash: Hasher, s: Store) {
    && (s.lock.Some? ==> s.lock.value < |s.txs|)
    && forall i :: 0 <= i < |s.txs| ==> TxOk(hash, s, i)
  }

  predicate Inv(hash: Hasher, s: Store) {
    ValidChain(hash, s.events) && HeadOk(s) && RowsOk(s.events) && TxsOk(hash, s) && ReceiptsDistinct(s)
        && CheckpointsOk(s)
  }

  // ---------- every step keeps it ----------

  lemma BeginKeepsInv(hash: Hasher, s: Store, e: Event)
    requires Inv(hash, s)
    ensures Inv(hash, Begin(s, e))
  {
    hide Acceptable, ReceiptOk, NextRow, CheckpointOk, ValidChain, RowsOk;
    var t := Begin(s, e);
    forall i | 0 <= i < |t.txs| ensures TxOk(hash, t, i) { if i < |s.txs| { assert TxOk(hash, s, i); } }
    forall n | 1 <= n <= |t.events| ensures Receipted(t, n) {
      assert Receipted(s, n);
      var i :| 0 <= i < |s.txs| && s.txs[i].Committed? && s.txs[i].receipt.sequence == n;
      assert t.txs[i] == s.txs[i];
    }
  }

  /** Changing one uncommitted transaction into another leaves the receipts as they are. */
  lemma ReceiptsUntouched(s: Store, t: Store, i: nat)
    requires i < |s.txs| && |t.txs| == |s.txs| && t.events == s.events && ReceiptsDistinct(s)
    requires !s.txs[i].Committed? && !t.txs[i].Committed? && forall j :: 0 <= j < |s.txs| && j != i ==>
             t.txs[j] == s.txs[j]
    ensures ReceiptsDistinct(t)
  {
    forall n | 1 <= n <= |t.events| ensures Receipted(t, n) {
      assert Receipted(s, n);
      var j :| 0 <= j < |s.txs| && s.txs[j].Committed? && s.txs[j].receipt.sequence == n;
      assert t.txs[j] == s.txs[j];
    }
  }

  lemma LockKeepsInv(hash: Hasher, s: Store, i: nat)
    requires Inv(hash, s)
    ensures Inv(hash, LockHead(s, i))
  {
    hide Acceptable, ReceiptOk, NextRow, CheckpointOk, ValidChain, RowsOk, ReceiptsDistinct;
    if Waiting(s, i) {
      var t := LockHead(s, i);
      forall j | 0 <= j < |t.txs| ensures TxOk(hash, t, j) { assert TxOk(hash, s, j); }
      ReceiptsUntouched(s, t, i);
    }
  }

  lemma RollbackKeepsInv(hash: Hasher, s: Store, i: nat)
    requires Inv(hash, s)
    ensures Inv(hash, Rollback(s, i))
  {
    hide Acceptable, ReceiptOk, NextRow, CheckpointOk, ValidChain, RowsOk, ReceiptsDistinct;
    if i < |s.txs| && Open(s.txs[i]) {
      var t := Rollback(s, i);
      forall j | 0 <= j < |t.txs| ensures TxOk(hash, t, j) { assert TxOk(hash, s, j); }
      ReceiptsUntouched(s, t, i);
    }
  }

  lemma RowForIsNext(hash: Hasher, s: Store, i: nat)
    requires HeadOk(s) && HoldsHead(s, i) && s.txs[i].head == s.head && RowFor(hash, s, i).Some?
    requires Acceptable(s.txs[i].event)
    ensures NextRow(hash, s.events, s.txs[i].event, RowFor(hash, s, i).value)
  {
    hide EventHash, Taken, Acceptable, Micro, StateChecks, NumberChecks, CodeChecks;
    AcceptableStoredExactly(s.txs[i].event);
  }

  lemma WholeMicros(t: Time)
    requires ValidTime(t)
    ensures Micro(t) == t
  {
  }

  /** Validation admits only times that the table can hold. */
  lemma AcceptableStoredExactly(e: Event)
    requires Acceptable(e)
    ensures Micro(e.occurredAt) == e.occurredAt
  {
    WholeMicros(e.occurredAt);
  }

  lemma {:induction false} DistinctCount(values: seq<string>)
    requires Sorting.Distinct(Sorting.Itself, values)
    ensures |set i | 0 <= i < |values| :: values[i]| == |values|
  {
    if values != [] {
      var n := |values| - 1;
      DistinctCount(values[..n]);
      var before := set i | 0 <= i < |values[..n]| :: values[..n][i];
      assert (set i | 0 <= i < |values| :: values[i]) == before + {values[n]};
    }
  }

  lemma IdentifierNonBlank(s: string)
    requires Patterns.IsIdentifier(s)
    ensures NonBlank(s)
  {
    assert s[0] != ' ';
  }

  lemma CodesPass(values: seq<string>)
    requires ValidCodeSet(values)
    ensures CodeArray(values)
  {
    DistinctCount(values);
  }

  lemma {:induction false} CountDistinct(values: seq<string>)
    ensures |set i | 0 <= i < |values| :: values[i]| <= |values|
    ensures |set i | 0 <= i < |values| :: values[i]| == |values| ==> Sorting.Distinct(Sorting.Itself, values)
  {
    if values != [] {
      var n := |values| - 1;
      CountDistinct(values[..n]);
      var before := set i | 0 <= i < |values[..n]| :: values[..n][i];
      assert (set i | 0 <= i < |values| :: values[i]) == before + {values[n]};
      if values[n] !in before && |before| == n {
        forall i, j | 0 <= i < j < |values| ensures Sorting.Itself(values[i]) != Sorting.Itself(values[j]) {
          if j == n { assert values[..n][i] in before; } else { assert values[..n][i] != values[..n][j]; }
        }
      }
    }
  }

  lemma CodeArrayExactly(values: seq<string>)
    ensures CodeArray(values) <==> ValidCodeSet(values)
  {
    hide Patterns.IsCode;
    CountDistinct(values);
    if Sorting.Distinct(Sorting.Itself, values) { DistinctCount(values); }
  }

  /** After the first instant of year one, and in whole microseconds. */
  predicate ProperTime(t: Time) {
    && Civil(t) && t.year > 0 && Micro(t) == t
    && (t.year > 1 || t.month > 1 || t.day > 1 || t.hour > 0 || t.minute > 0 || t.second > 0 || t.nano > 0)
  }

  lemma ProperTimesExactly(t: Time)
    ensures ValidTime(t) <==> ProperTime(t)
  {
  }

  /**
   Validation accepts exactly the events that satisfy the CHECKs of the table, spell their ids as lower-case UUIDs and
   their names as identifiers, and have a proper time.
   */
  lemma ValidatedExactly(e: Event, eventHash: Digest)
    requires eventHash != ZERO
    ensures Valid(e) <==>
            && TableChecks(e, eventHash) && ProperTime(e.occurredAt)
            && Patterns.IsUuid(e.eventId) && Patterns.IsUuid(e.runId) && Patterns.IsUuid(e.principalId)
            && Patterns.IsIdentifier(e.requestedModel) && Patterns.IsIdentifier(e.resolvedBackend)
            && Patterns.IsIdentifier(e.softwareVersion)
  {
    hide ValidCodeSet, CodeArray, Patterns.IsCode, Patterns.IsUuid, Patterns.IsIdentifier, ValidTime, ProperTime,
         NonBlank;
    if Valid(e) { ValidatedPassesTableChecks(e, eventHash); }
    ProperTimesExactly(e.occurredAt);
    CodeArrayExactly(e.reasonCodes);
    CodeArrayExactly(e.piiCategories);
    CodeArrayExactly(e.healthCategories);
    CodeArrayExactly(e.secretCategories);
  }

  /** Validation implies every CHECK of the events table, so a validated event with a non-zero hash never trips one. */
  lemma ValidatedPassesTableChecks(e: Event, eventHash: Digest)
    requires Valid(e)
    ensures TableChecks(e, eventHash) <==> eventHash != ZERO
  {
    hide ValidCodeSet, CodeArray, Patterns.IsCode, Patterns.IsUuid, ValidTime, NonBlank;
    IdentifierNonBlank(e.requestedModel);
    IdentifierNonBlank(e.resolvedBackend);
    IdentifierNonBlank(e.softwareVersion);
    CodesPass(e.reasonCodes);
    CodesPass(e.piiCategories);
    CodesPass(e.healthCategories);
    CodesPass(e.secretCategories);
  }

  lemma InsertKeepsInv(hash: Hasher, s: Store, i: nat)
    requires Inv(hash, s)
    ensures Inv(hash, Insert(hash, s, i))
  {
    hide Acceptable, ReceiptOk, NextRow, CheckpointOk, ValidChain, RowsOk, ReceiptsDistinct, RowFor, Rollback;
    if HoldsHead(s, i) {
      var t := Insert(hash, s, i);
      assert TxOk(hash, s, i);
      if RowFor(hash, s, i).None? {
        RollbackKeepsInv(hash, s, i);
      } else {
        RowForIsNext(hash, s, i);
        forall j | 0 <= j < |t.txs| ensures TxOk(hash, t, j) { assert TxOk(hash, s, j); }
        ReceiptsUntouched(s, t, i);
      }
    }
  }

  lemma NextRowKeepsRows(hash: Hasher, rows: seq<Record>, e: Event, r: Record)
    requires RowsOk(rows) && ValidChain(hash, rows) && NextRow(hash, rows, e, r)
    ensures RowsOk(rows + [r]) && ValidChain(hash, rows + [r])
  {
    hide EventHash, ValidChain;
    AppendKeepsChain(hash, rows, r);
  }

  lemma ReceiptLasts(rows: seq<Record>, r: Record, e: Event, receipt: Receipt)
    requires ReceiptOk(rows, e, receipt)
    ensures ReceiptOk(rows + [r], e, receipt)
  {
  }

  lemma NewReceiptOk(hash: Hasher, rows: seq<Record>, e: Event, r: Record)
    requires NextRow(hash, rows, e, r)
    ensures ReceiptOk(rows + [r], e, ReceiptOf(r))
  {
    hide EventHash, Taken;
  }

  lemma CommittedReceipts(s: Store, i: nat)
    requires ReceiptsDistinct(s) && HasInserted(s, i) && s.txs[i].row.sequence == |s.events| + 1
    requires forall j :: 0 <= j < |s.txs| && s.txs[j].Committed? ==> s.txs[j].receipt.sequence <= |s.events|
    ensures ReceiptsDistinct(Commit(s, i))
  {
    var t := Commit(s, i);
    forall n | 1 <= n <= |t.events| ensures Receipted(t, n) {
      if n == |t.events| {
        assert t.txs[i].Committed? && t.txs[i].receipt.sequence == n;
      } else {
        assert Receipted(s, n);
        var j :| 0 <= j < |s.txs| && s.txs[j].Committed? && s.txs[j].receipt.sequence == n;
        assert t.txs[j] == s.txs[j];
      }
    }
  }

  lemma CommitTxs(hash: Hasher, s: Store, i: nat)
    requires TxsOk(hash, s) && HasInserted(s, i)
    ensures TxsOk(hash, Commit(s, i))
  {
    hide Acceptable, ReceiptOk, NextRow, ReceiptOf;
    var t := Commit(s, i);
    assert TxOk(hash, s, i);
    forall j | 0 <= j < |t.txs| ensures TxOk(hash, t, j) {
      assert TxOk(hash, s, j);
      if j == i {
        NewReceiptOk(hash, s.events, s.txs[i].event, s.txs[i].row);
      } else if s.txs[j].Committed? {
        ReceiptLasts(s.events, s.txs[i].row, s.txs[j].event, s.txs[j].receipt);
      }
    }
  }

  lemma CommitKeepsInv(hash: Hasher, s: Store, i: nat)
    requires Inv(hash, s)
    ensures Inv(hash, Commit(s, i))
  {
    hide ValidChain, RowsOk, ReceiptsDistinct, Acceptable, EventHash, Taken, TxsOk, ValidPayload;
    if HasInserted(s, i) {
      TxAt(hash, s, i);
      CommitTxs(hash, s, i);
      NextRowKeepsRows(hash, s.events, s.txs[i].event, s.txs[i].row);
      forall j | 0 <= j < |s.txs| && s.txs[j].Committed? ensures s.txs[j].receipt.sequence <= |s.events| {
        TxAt(hash, s, j);
      }
      CommittedReceipts(s, i);
    }
  }

  lemma TxAt(hash: Hasher, s: Store, i: nat)
    requires TxsOk(hash, s) && i < |s.txs|
    ensures TxOk(hash, s, i)
  {
  }

  /** In a chain, the row with a given sequence stands at that position. */
  lemma RowPosition(hash: Hasher, s: Store, n: int, d: Digest)
    requires ValidChain(hash, s.events)
    ensures HasRow(s, n, d) <==> 1 <= n <= |s.events| && s.events[n - 1].eventHash == d
  {
    hide EventHash;
    forall k | 0 <= k < |s.events| ensures s.events[k].sequence == k + 1 { assert LinkedAt(hash, s.events, k); }
  }

  /** A signable checkpoint is stored as it is. */
  lemma StoredUnchanged(c: Checkpoint)
    requires ValidPayload(c)
    ensures c.(createdAt := Micro(c.createdAt)) == c
  {
    WholeMicros(c.createdAt);
  }

  lemma CheckpointKeepsInv(hash: Hasher, s: Store, c: Checkpoint)
    requires Inv(hash, s)
    ensures Inv(hash, StoreCheckpoint(s, c))
  {
    hide ValidChain, RowsOk, ReceiptsDistinct, TxOk, ValidPayload, HasRow;
    RowPosition(hash, s, c.sequence, c.headHash);
    if Storable(s, c) { StoredUnchanged(c); }
    var t := StoreCheckpoint(s, c);
    forall i | 0 <= i < |t.txs| ensures TxOk(hash, t, i) { SameTx(hash, s, t, i); }
    SameReceipts(s, t);
  }

  lemma SameTx(hash: Hasher, s: Store, t: Store, i: nat)
    requires i < |s.txs| && TxOk(hash, s, i)
    requires s.txs == t.txs && s.events == t.events && s.lock == t.lock && s.head == t.head
    ensures TxOk(hash, t, i)
  {
  }

  lemma SameReceipts(s: Store, t: Store)
    requires ReceiptsDistinct(s) && s.txs == t.txs && s.events == t.events
    ensures ReceiptsDistinct(t)
  {
    forall n | 1 <= n <= |t.events| ensures Receipted(t, n) { assert Receipted(s, n); }
  }

  /** Registrations do not touch the chain, its transactions or its checkpoints. */
  lemma RegistryKeepsInv(hash: Hasher, s: Store, identifiers: set<(string, string)>, principals: set<string>)
    requires Inv(hash, s)
    ensures Inv(hash, s.(identifiers := identifiers, principals := principals))
  {
    hide ValidChain, RowsOk, ReceiptsDistinct, TxOk, CheckpointOk;
    var t := s.(identifiers := identifiers, principals := principals);
    forall i | 0 <= i < |t.txs| ensures TxOk(hash, t, i) { SameTx(hash, s, t, i); }
    SameReceipts(s, t);
  }

  lemma ApplyKeepsInv(hash: Hasher, s: Store, step: Step)
    requires Inv(hash, s)
    ensures Inv(hash, Apply(hash, s, step))
  {
    hide Inv, Begin, LockHead, Insert, Commit, Rollback, StoreCheckpoint;
    match step
    case BeginStep(e) => BeginKeepsInv(hash, s, e);
    case LockStep(i) => LockKeepsInv(hash, s, i);
    case InsertStep(i) => InsertKeepsInv(hash, s, i);
    case CommitStep(i) => CommitKeepsInv(hash, s, i);
    case RollbackStep(i) => RollbackKeepsInv(hash, s, i);
    case CheckpointStep(c) => CheckpointKeepsInv(hash, s, c);
    case RegisterStep(kind, value) => RegistryKeepsInv(hash, s, Register(s, kind, value).identifiers, s.principals);
    case PrincipalStep(id) => RegistryKeepsInv(hash, s, s.identifiers, AddPrincipal(s, id).principals);
  }

  lemma {:induction false} InvAlways(hash: Hasher, s: Store, run: seq<Step>)
    requires Inv(hash, s)
    ensures Inv(hash, After(hash, s, run))
  {
    hide Inv, Apply;
    if run != [] {
      InvAlways(hash, s, run[..|run| - 1]);
      ApplyKeepsInv(hash, After(hash, s, run[..|run| - 1]), run[|run| - 1]);
    }
  }

  /**
   After any interleaving from the empty tables: the stored rows verify, the head row is the last row (or zero), and the
   receipts handed out name exactly the stored rows, each once, each row holding the event that was submitted.
   */
  lemma StoredChainVerifies(hash: Hasher, run: seq<Step>)
    ensures var s := After(hash, EMPTY, run);
            && Verdict(hash, s.events) == None
            && s.head.sequence == |s.events| && s.head.eventHash == PreviousOf(s.events, |s.events|)
            && ReceiptsDistinct(s)
            && forall i :: 0 <= i < |s.txs| && s.txs[i].Committed? ==>
               ReceiptOk(s.events, s.txs[i].event, s.txs[i].receipt)
  {
    hide After, ValidChain, Verdict, ReceiptsDistinct, ReceiptOk, NextRow, Acceptable, RowsOk, CheckpointsOk;
    EmptyInv(hash);
    InvAlways(hash, EMPTY, run);
    var s := After(hash, EMPTY, run);
    VerdictIsValidity(hash, s.events);
    forall i | 0 <= i < |s.txs| && s.txs[i].Committed? ensures ReceiptOk(s.events, s.txs[i].event, s.txs[i].receipt) {
      TxAt(hash, s, i);
    }
  }

  lemma EmptyInv(hash: Hasher)
    ensures Inv(hash, EMPTY)
  {
  }

  // ---------- history is append-only ----------

  predicate Extends(s: Store, t: Store) {
    && s.events <= t.events && |s.txs| <= |t.txs| && s.identifiers <= t.identifiers && s.principals <= t.principals
    && (forall n :: n in s.checkpoints ==> n in t.checkpoints && t.checkpoints[n] == s.checkpoints[n])
    && forall i :: 0 <= i < |s.txs| && s.txs[i].Committed? ==> t.txs[i] == s.txs[i]
  }

  lemma ApplyExtends(hash: Hasher, s: Store, step: Step)
    ensures Extends(s, Apply(hash, s, step))
  {
    hide Acceptable, RowFor, ValidPayload, HasRow;
  }

  lemma ExtendsTransitive(s: Store, t: Store, u: Store)
    requires Extends(s, t) && Extends(t, u)
    ensures Extends(s, u)
  {
    forall i | 0 <= i < |s.txs| && s.txs[i].Committed? ensures u.txs[i] == s.txs[i] { assert t.txs[i] == s.txs[i]; }
  }

  /** No committed row, receipt or checkpoint ever changes or goes away. */
  lemma {:induction false} RunsExtend(hash: Hasher, s: Store, run: seq<Step>)
    ensures Extends(s, After(hash, s, run))
  {
    hide Apply, Extends;
    if run == [] {
      ExtendsReflexive(s);
    } else {
      var t := After(hash, s, run[..|run| - 1]);
      RunsExtend(hash, s, run[..|run| - 1]);
      ApplyExtends(hash, t, run[|run| - 1]);
      ExtendsTransitive(s, t, After(hash, s, run));
    }
  }

  lemma ExtendsReflexive(s: Store)
    ensures Extends(s, s)
  {
  }

  // ---------- an append that meets no fault ----------

  lemma RelinkedValid(e: Event, d: Digest)
    requires Valid(e)
    ensures Valid(e.(previousHash := d))
  {
  }

  predicate Appendable(hash: Hasher, s: Store, e: Event) {
    && Acceptable(e) && Registered(s, e) && |s.events| < MAX_SEQUENCE && !Taken(e.eventId, s.events)
    && EventHash(hash, Linked(e, s.head)) != Some(ZERO)
  }

  /**
   Without a fault, an append commits exactly when the event is acceptable, its names are registered, its id is new and
   its hash is not zero.
   */
  lemma AppendCommits(hash: Hasher, s: Store, e: Event)
    requires Inv(hash, s) && s.lock.None?
    ensures var t := AppendAlone(hash, s, e, NoFault);
            && Inv(hash, t) && t.lock.None?
            && (Outcome(t, |s.txs|).Some? <==> Appendable(hash, s, e))
            && |t.events| == |s.events| + (if Appendable(hash, s, e) then 1 else 0)
  {
    hide Inv, Taken, Acceptable, EventHash, Registered, TableChecks;
    RegisteredBegun(s, e);
    var i := |s.txs|;
    BeginKeepsInv(hash, s, e);
    LockKeepsInv(hash, Begin(s, e), i);
    InsertKeepsInv(hash, LockHead(Begin(s, e), i), i);
    CommitKeepsInv(hash, Insert(hash, LockHead(Begin(s, e), i), i), i);
    InvHead(hash, s);
    if Acceptable(e) {
      AcceptableHashes(hash, e, s.head);
      AcceptablePasses(e, s.head, EventHash(hash, Linked(e, s.head)).value);
    }
  }

  /** Neither linking nor the transaction's own steps change what the registration check sees. */
  lemma RegisteredBegun(s: Store, e: Event)
    ensures Registered(LockHead(Begin(s, e), |s.txs|), Linked(e, s.head)) <==> Registered(s, e)
  {
    hide Acceptable;
  }

  lemma InvHead(hash: Hasher, s: Store)
    requires Inv(hash, s)
    ensures HeadOk(s)
  {
  }

  lemma AcceptablePasses(e: Event, head: Head, eventHash: Digest)
    requires Acceptable(e)
    ensures TableChecks(Linked(e, head), eventHash) <==> eventHash != ZERO
  {
    hide Valid, TableChecks;
    RelinkedValid(e, head.eventHash);
    ValidatedPassesTableChecks(Linked(e, head), eventHash);
  }

  lemma AcceptableHashes(hash: Hasher, e: Event, head: Head)
    requires Acceptable(e)
    ensures EventHash(hash, Linked(e, head)).Some?
  {
    hide Valid;
    RelinkedValid(e, head.eventHash);
  }

  // ---------- reading back ----------

  lemma {:induction false} ThroughPrefix(hash: Hasher, rows: seq<Record>, n: nat)
    requires ValidChain(hash, rows)
    ensures Through(rows, n) == if n <= |rows| then rows[..n] else rows
  {
    hide EventHash, LinkedAt;
    if rows != [] {
      var last := |rows| - 1;
      PrefixValid(hash, rows, last);
      ThroughPrefix(hash, rows[..last], n);
      assert LinkedAt(hash, rows, last);
      SequenceAt(hash, rows, last);
      if n < |rows| { assert rows[..last][..n] == rows[..n]; } else { assert rows[..last] + [rows[last]] == rows; }
    }
  }

  lemma SequenceAt(hash: Hasher, rows: seq<Record>, i: nat)
    requires i < |rows| && LinkedAt(hash, rows, i)
    ensures rows[i].sequence == i + 1
  {
    hide EventHash;
  }

  /**
   Reading through a sequence gives that many rows when there are as many, and otherwise reports the first one missing.
   */
  lemma RecordsThroughExactly(hash: Hasher, s: Store, n: int)
    requires Inv(hash, s)
    ensures RecordsThrough(hash, s, n) ==
            if n <= 0 then Err(Unreadable) else if n <= |s.events| then Ok(s.events[..n])
            else Err(Broken(|s.events| + 1))
  {
    hide Verdict, LinkedAt, TxsOk, ReceiptsDistinct, CheckpointsOk, HeadOk, RowsOk, Through;
    if n > 0 {
      var k := if n <= |s.events| then n else |s.events|;
      ThroughPrefix(hash, s.events, n);
      PrefixValid(hash, s.events, k);
      assert s.events[..|s.events|] == s.events;
      VerdictIsValidity(hash, s.events[..k]);
      if k > 0 { SequenceAt(hash, s.events, k - 1); }
    }
  }

  /** The head that can be signed is the last row, and there is one exactly when there are rows. */
  lemma ChainHeadExactly(hash: Hasher, s: Store)
    requires Inv(hash, s)
    ensures ChainHead(s).Some? <==> s.events != []
    ensures s.events != [] ==> ChainHead(s).value.sequence == |s.events|
                               && ChainHead(s).value.eventHash == s.events[|s.events| - 1].eventHash
  {
    hide ValidChain, TxsOk, ReceiptsDistinct, CheckpointsOk;
  }

  /**
   A checkpoint made from the head of some state can be stored in any later state, unless its sequence has one already.
   */
  lemma HeadCheckpointStorable(hash: Hasher, s: Store, run: seq<Step>, c: Checkpoint)
    requires Inv(hash, s) && ChainHead(s) == Some(Head(c.sequence, c.headHash))
    requires ValidPayload(c) && |c.signature| == SIGNATURE_SIZE
    ensures var t := After(hash, s, run);
            && (Storable(t, c) <==> c.sequence !in t.checkpoints)
            && |s.events| == c.sequence && |s.events| <= |t.events| && t.events[..c.sequence] == s.events
  {
    hide After, ValidChain, ValidPayload, HasRow, TxsOk, ReceiptsDistinct, CheckpointsOk, RowsOk;
    RunsExtend(hash, s, run);
    InvAlways(hash, s, run);
    var t := After(hash, s, run);
    RowPosition(hash, t, c.sequence, c.headHash);
    assert t.events[..|s.events|] == s.events;
  }

  /**
   A stored checkpoint is read back unchanged, and the rows it covers can be exported and verify under a key that
   accepts it.
   */
  lemma CheckpointedRowsExport(hash: Hasher, key: VerificationKey, s: Store, n: int)
    requires Inv(hash, s) && n in s.checkpoints
    ensures var c := s.checkpoints[n];
            && LoadCheckpoint(s, n) == Some(c)
            && 1 <= n <= |s.events| && RecordsThrough(hash, s, n) == Ok(s.events[..n])
            && Export(hash, s.events[..n], c).Some?
            && (CheckExport(hash, key, Export(hash, s.events[..n], c).value) == Ok(()) <==> VerifyCheckpoint(c, key))
  {
    hide Export, CheckExport, VerifyCheckpoint, RecordsThrough, LinkedAt, TxsOk, ReceiptsDistinct, HeadOk;
    var c := s.checkpoints[n];
    assert CheckpointOk(s.events, n, c);
    RecordsThroughExactly(hash, s, n);
    var rs := s.events[..n];
    PrefixValid(hash, s.events, n);
    SequenceAt(hash, s.events, n - 1);
    assert Exportable(hash, rs, c);
    ExportExportable(hash, rs, c);
    ExportVerifies(hash, key, rs, c);
    LoadedUnchanged(s, n);
  }

  lemma LoadedUnchanged(s: Store, n: int)
    requires n in s.checkpoints && CheckpointOk(s.events, n, s.checkpoints[n])
    ensures LoadCheckpoint(s, n) == Some(s.checkpoints[n])
  {
    hide Patterns.IsIdentifier, ValidTime;
    assert s.checkpoints[n] == s.checkpoints[n].(schemaVersion := 1);
  }

  /**
   From the empty tables: sign the head after any run, store the checkpoint after any further run in which nobody stored
   one for that sequence, and read it back after yet another. The rows exported are those present at signing, and the
   export verifies under the signer's key.
   */
  lemma CheckpointStaysVerifiable(hash: Hasher, signer: Signer, key: VerificationKey, at: Time,
                                  before: seq<Step>, between: seq<Step>, later: seq<Step>)
    requires Paired(signer, key) && Patterns.IsIdentifier(signer.keyId) && ValidTime(at)
    requires After(hash, EMPTY, before).events != []
    ensures var s := After(hash, EMPTY, before);
            && ChainHead(s).Some?
            && var c := CreateCheckpoint(s.head.sequence, s.head.eventHash, at, signer, false);
               && c.Some?
               && var t := After(hash, s, between);
                  && (Storable(t, c.value) <==> c.value.sequence !in t.checkpoints)
                  && (Storable(t, c.value) ==>
                        var u := After(hash, StoreCheckpoint(t, c.value), later);
                        && LoadCheckpoint(u, c.value.sequence) == c
                        && RecordsThrough(hash, u, c.value.sequence) == Ok(s.events)
                        && Export(hash, s.events, c.value).Some?
                        && CheckExport(hash, key, Export(hash, s.events, c.value).value) == Ok(()))
  {
    hide *;
    EmptyInv(hash);
    InvAlways(hash, EMPTY, before);
    var s := After(hash, EMPTY, before);
    HeadCanBeSigned(hash, signer, key, at, s);
    var c := CreateCheckpoint(s.head.sequence, s.head.eventHash, at, signer, false).value;
    HeadCheckpointStorable(hash, s, between, c);
    InvAlways(hash, s, between);
    if Storable(After(hash, s, between), c) { StoredLasts(hash, key, s, After(hash, s, between), c, later); }
  }

  lemma HeadCanBeSigned(hash: Hasher, signer: Signer, key: VerificationKey, at: Time, s: Store)
    requires Inv(hash, s) && s.events != []
    requires Paired(signer, key) && Patterns.IsIdentifier(signer.keyId) && ValidTime(at)
    ensures ChainHead(s) == Some(s.head)
    ensures var c := CreateCheckpoint(s.head.sequence, s.head.eventHash, at, signer, false);
            && c.Some? && c.value.sequence == s.head.sequence && c.value.headHash == s.head.eventHash
            && ValidPayload(c.value) && |c.value.signature| == SIGNATURE_SIZE && VerifyCheckpoint(c.value, key)
  {
    hide Paired, Patterns.IsIdentifier, ValidTime, ValidChain, TxsOk, ReceiptsDistinct, CheckpointsOk, CreateCheckpoint,
         ValidPayload;
    CreatedCheckpointVerifies(s.head.sequence, s.head.eventHash, at, signer, false, key);
  }

  lemma StorableIsSignable(s: Store, c: Checkpoint)
    requires Storable(s, c)
    ensures ValidPayload(c)
  {
  }

  lemma StoredLasts(hash: Hasher, key: VerificationKey, s: Store, t: Store, c: Checkpoint, later: seq<Step>)
    requires Inv(hash, t) && Storable(t, c) && VerifyCheckpoint(c, key) && 0 <= c.sequence <= |t.events|
             && t.events[..c.sequence] == s.events
    ensures var u := After(hash, StoreCheckpoint(t, c), later);
            && LoadCheckpoint(u, c.sequence) == Some(c)
            && RecordsThrough(hash, u, c.sequence) == Ok(s.events)
            && Export(hash, s.events, c).Some?
            && CheckExport(hash, key, Export(hash, s.events, c).value) == Ok(())
  {
    hide After, Inv, LoadCheckpoint, RecordsThrough, Export, CheckExport, Storable, VerifyCheckpoint;
    var t' := StoreCheckpoint(t, c);
    CheckpointKeepsInv(hash, t, c);
    InvAlways(hash, t', later);
    RunsExtend(hash, t', later);
    var u := After(hash, t', later);
    StorableIsSignable(t, c);
    StoredUnchanged(c);
    assert u.checkpoints[c.sequence] == c;
    CheckpointedRowsExport(hash, key, u, c.sequence);
    assert u.events[..c.sequence] == t.events[..c.sequence];
  }

  // ---------- the hypotheses can be met ----------

  const ID := "00000000-0000-4000-8000-000000000001"
  const ONES: Digest := ZERO[0 := 1]

  /** A start event such as the handler writes for an API-key caller. */
  const SAMPLE := Event(
    1, ID, ID, "run_started", Time(2026, 1, 2, 3, 4, 5, 6000), ID, "api_key", None, ONES, "allow", ["policy_allowed"],
    "m", "b", "k", ONES, None, 12, None, [], map[], [], [], ONES, None, None, Some(7), None, "started", None, ZERO, "v",
    ONES)

  lemma IdIsUuid()
    ensures Patterns.IsUuid(ID)
  {
  }

  lemma SampleAcceptable()
    ensures Acceptable(SAMPLE)
  {
    hide Patterns.IsUuid;
    IdIsUuid();
    assert ONES[0] != ZERO[0];
    assert Patterns.IsCode("policy_allowed");
    assert Patterns.IsIdentifier("m") && Patterns.IsIdentifier("b") && Patterns.IsIdentifier("k")
           && Patterns.IsIdentifier("v");
  }

  /** The empty tables with the sample's names registered. */
  const READY := EMPTY.(
    identifiers := SEEDED + {("model", "m"), ("backend", "b"), ("software_version", "v"), ("content_hmac_key", "k")},
    principals := {ID})

  /**
   Under any hash that is not zero on it, the first append of the sample commits and is authorised to call the backend.
   */
  lemma FirstAppendCommits(hash: Hasher)
    requires EventHash(hash, SAMPLE) != Some(ZERO)
    ensures var s := AppendAlone(hash, READY, SAMPLE, NoFault);
            Inv(hash, s) && |s.events| == 1 && Outcome(s, 0).Some? && Outcome(s, 0).value.backendAuthorized
  {
    hide Inv, Acceptable, EventHash, AppendAlone, ReceiptOk;
    EmptyInv(hash);
    RegistryKeepsInv(hash, EMPTY, READY.identifiers, READY.principals);
    SampleAcceptable();
    assert Linked(SAMPLE, READY.head) == SAMPLE;
    AppendCommits(hash, READY, SAMPLE);
    CommittedReceipt(hash, AppendAlone(hash, READY, SAMPLE, NoFault), 0);
    AloneKeepsEvent(hash, READY, SAMPLE);
  }

  /**
   A receipt authorises a backend call only for a start event with a real position and a real hash, and then always.
   */
  lemma ReceiptAuthorisesExactly(sequence: Int64, eventHash: Digest, eventType: string)
    ensures var r := NewAppendReceipt(sequence, eventHash, eventType);
            && r.sequence == sequence && r.eventHash == eventHash
            && (eventType != "run_started" || sequence <= 0 || eventHash == ZERO ==> !r.backendAuthorized)
            && (eventType == "run_started" && sequence >= 1 && eventHash != ZERO ==> r.backendAuthorized)
  {
  }

  lemma CommittedReceipt(hash: Hasher, s: Store, i: nat)
    requires Inv(hash, s) && i < |s.txs| && s.txs[i].Committed?
    ensures s.txs[i].receipt.backendAuthorized <==> s.txs[i].event.eventType == "run_started"
  {
    hide ValidChain, HeadOk, RowsOk, ReceiptsDistinct, CheckpointsOk;
    TxAt(hash, s, i);
  }

  lemma AloneKeepsEvent(hash: Hasher, s: Store, e: Event)
    ensures var t := AppendAlone(hash, s, e, NoFault);
            |t.txs| == |s.txs| + 1 && (t.txs[|s.txs|].Committed? ==> t.txs[|s.txs|].event == e)
  {
    hide Acceptable, RowFor;
  }

  /** A signer and a key that form a pair exist. */
  lemma PairExists(signature: seq<Byte>)
    requires |signature| == SIGNATURE_SIZE
    ensures Paired(Signer(true, "k", (m: string) => signature),
                   VerificationKey(true, "k", (m: string, s: seq<Byte>) => s == signature))
  {
  }
}
