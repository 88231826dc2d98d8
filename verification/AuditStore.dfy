/**
 The audit tables and the transactions that append to them. Any number of appends interleave at the granularity of their
 database calls; a transaction's row and head update are visible to others only once it commits, and any open
 transaction may fail or be rolled back at any point. Checkpoints are stored between, by anyone.
 */
module AuditStore {
  import opened Common
  import opened Text
  import opened AuditEvent
  import opened AuditChain
  import opened AuditExport
  import Patterns

  const MAX_SEQUENCE: int := 0x7FFF_FFFF_FFFF_FFFF

  datatype Head = Head(sequence: Int64, eventHash: Digest)

  datatype Receipt = Receipt(sequence: Int64, eventHash: Digest, backendAuthorized: bool)

  function NewAppendReceipt(sequence: Int64, eventHash: Digest, eventType: string): Receipt {
    Receipt(sequence, eventHash, eventType == "run_started" && sequence > 0 && eventHash != ZERO)
  }

  /** One append: the event as submitted, and how far its transaction has come. */
  datatype Tx =
    | Begun(event: Event)
    | Locked(event: Event, head: Head)
    | Inserted(event: Event, row: Record)
    | Committed(event: Event, receipt: Receipt)
    | Failed

  /** `identifiers` holds registered (type, value) pairs, and `principals` the ids that events may refer to. */
  datatype Store = Store(
    events: seq<Record>, head: Head, lock: Option<nat>, txs: seq<Tx>, checkpoints: map<int, Checkpoint>,
    identifiers: set<(string, string)>, principals: set<string>)

  const SEEDED: set<(string, string)> := {("content_hmac_key", "legacy-v1")}

  const EMPTY: Store := Store([], Head(0, ZERO), None, [], map[], SEEDED, {})

  // ---------- appending ----------

  predicate Acceptable(e: Event) { e.previousHash == ZERO && Valid(e) }

  function Begin(s: Store, e: Event): Store {
    s.(txs := s.txs + [if Acceptable(e) then Begun(e) else Failed])
  }

  predicate Waiting(s: Store, i: nat) { i < |s.txs| && s.txs[i].Begun? && s.lock.None? }

  /** `lock_audit_chain_head`: waits until no other transaction holds the head row. */
  function LockHead(s: Store, i: nat): Store {
    if Waiting(s, i) then s.(lock := Some(i), txs := s.txs[i := Locked(s.txs[i].event, s.head)]) else s
  }

  predicate Taken(id: string, rows: seq<Record>) { exists k :: 0 <= k < |rows| && rows[k].event.eventId == id }

  /** Every name in the event is registered, and its principal exists. */
  predicate Registered(s: Store, e: Event) {
    && ("model", e.requestedModel) in s.identifiers && ("backend", e.resolvedBackend) in s.identifiers
    && ("software_version", e.softwareVersion) in s.identifiers && ("content_hmac_key", e.hmacKeyId) in s.identifiers
    && e.principalId in s.principals
  }

  // The constraints of the events table, as the migrations declare them.

  predicate NonBlank(s: string) { exists i :: 0 <= i < |s| && s[i] != ' ' }

  predicate NotNegative(x: Option<int>) { x.None? || x.value >= 0 }

  /** A code array: at most 64 elements, all well formed, as many distinct ones as elements. */
  predicate CodeArray(values: seq<string>) {
    && |values| <= 64 && (forall i :: 0 <= i < |values| ==> Patterns.IsCode(values[i]))
    && |set i | 0 <= i < |values| :: values[i]| == |values|
  }

  predicate CountObject(counts: map<string, Int64>) {
    |counts.Keys| <= 64 && forall key :: key in counts ==> Patterns.IsCode(key) && counts[key] >= 0
  }

  predicate StateChecks(e: Event) {
    && e.schemaVersion == 1
    && ((e.eventType == "run_started" && e.decision == "allow" && e.status == "started") ||
        (e.eventType == "run_completed" && e.decision == "allow" && e.status == "completed") ||
        (e.eventType == "run_failed" && e.decision == "allow" && e.status == "failed") ||
        (e.eventType == "run_denied" && e.decision == "deny" && e.status == "denied"))
    && (e.authMethod == "oidc" || e.authMethod == "api_key" || e.authMethod == "workload")
    && (e.authMethod == "oidc" <==> e.oidcIssuerHash.Some?)
    && NonBlank(e.requestedModel) && NonBlank(e.resolvedBackend) && NonBlank(e.softwareVersion)
    && Patterns.IsIdentifier(e.hmacKeyId)
  }

  predicate HashChecks(e: Event, eventHash: Digest) {
    && e.oidcIssuerHash != Some(ZERO) && e.policyVersionHash != ZERO && e.requestHmac != ZERO
       && e.responseHmac != Some(ZERO)
    && e.detectorHash != ZERO && e.configHash != ZERO && eventHash != ZERO
  }

  predicate NumberChecks(e: Event) {
    && e.requestBytes >= 0 && NotNegative(e.responseBytes) && NotNegative(e.inputTokens) && NotNegative(e.outputTokens)
    && NotNegative(e.reservedCost) && NotNegative(e.actualCost)
  }

  predicate CodeChecks(e: Event) {
    && CodeArray(e.reasonCodes) && CodeArray(e.piiCategories) && CodeArray(e.healthCategories)
    && CodeArray(e.secretCategories) && CountObject(e.piiCounts)
    && (e.errorCode.Some? ==> Patterns.IsCode(e.errorCode.value))
  }

  predicate TableChecks(e: Event, eventHash: Digest) {
    StateChecks(e) && HashChecks(e, eventHash) && NumberChecks(e) && CodeChecks(e)
  }

  /** Timestamps are stored in whole microseconds. */
  function Micro(t: Time): Time { t.(nano := t.nano / 1000 * 1000) }

  function AsStored(e: Event): Event { e.(occurredAt := Micro(e.occurredAt)) }

  /** The insert with its checks, triggers and constraints: the row to be stored, or None for an exception. */
  function InsertRow(s: Store, e: Event, eventHash: Digest): Option<Record> {
    if !Registered(s, e) then None
    else if e.previousHash != s.head.eventHash then None
    else if s.head.sequence == MAX_SEQUENCE then None
    else if !TableChecks(e, eventHash) || Taken(e.eventId, s.events) then None
    else Some(Record(s.head.sequence + 1, AsStored(e), eventHash))
  }

  function Linked(e: Event, head: Head): Event { e.(previousHash := head.eventHash) }

  predicate HoldsHead(s: Store, i: nat) { i < |s.txs| && s.txs[i].Locked? }

  /** The row that transaction `i` inserts, when every check on the way passes. */
  function RowFor(hash: Hasher, s: Store, i: nat): Option<Record>
    requires HoldsHead(s, i)
  {
    var tx := s.txs[i];
    var e := Linked(tx.event, tx.head);
    var eventHash :- EventHash(hash, e);
    var row :- InsertRow(s, e, eventHash);
    if row.sequence == tx.head.sequence + 1 then Some(row) else None
  }

  predicate Open(tx: Tx) { tx.Begun? || tx.Locked? || tx.Inserted? }

  function Rollback(s: Store, i: nat): Store {
    if i < |s.txs| && Open(s.txs[i]) then
      s.(txs := s.txs[i := Failed], lock := if s.lock == Some(i) then None else s.lock)
    else s
  }

  function Insert(hash: Hasher, s: Store, i: nat): Store {
    if !HoldsHead(s, i) then s
    else
      var row := RowFor(hash, s, i);
      if row.None? then Rollback(s, i) else s.(txs := s.txs[i := Inserted(s.txs[i].event, row.value)])
  }

  predicate HasInserted(s: Store, i: nat) { i < |s.txs| && s.txs[i].Inserted? }

  function ReceiptOf(row: Record): Receipt { NewAppendReceipt(row.sequence, row.eventHash, row.event.eventType) }

  function Commit(s: Store, i: nat): Store {
    if !HasInserted(s, i) then s
    else
      var row := s.txs[i].row;
      s.(events := s.events + [row], head := Head(row.sequence, row.eventHash), lock := None,
         txs := s.txs[i := Committed(s.txs[i].event, ReceiptOf(row))])
  }

  /** Where a database call of one append reports an error. */
  datatype Fault = NoFault | AtLock | AtInsert | AtCommit

  /** One append with nothing in between; one that finds the head row locked is left waiting for it. */
  function AppendAlone(hash: Hasher, s: Store, e: Event, fault: Fault): Store {
    var i := |s.txs|;
    var begun := Begin(s, e);
    if fault.AtLock? then Rollback(begun, i)
    else
      var locked := LockHead(begun, i);
      if fault.AtInsert? then Rollback(locked, i)
      else
        var inserted := Insert(hash, locked, i);
        if fault.AtCommit? then Rollback(inserted, i) else Commit(inserted, i)
  }

  function Outcome(s: Store, i: nat): Option<Receipt> {
    if i < |s.txs| && s.txs[i].Committed? then Some(s.txs[i].receipt) else None
  }

  // ---------- checkpoints and reads ----------

  function ChainHead(s: Store): Option<Head> {
    if s.head.sequence <= 0 || s.head.eventHash == ZERO then None else Some(s.head)
  }

  predicate HasRow(s: Store, sequence: int, eventHash: Digest) {
    exists k :: 0 <= k < |s.events| && s.events[k].sequence == sequence && s.events[k].eventHash == eventHash
  }

  predicate Storable(s: Store, c: Checkpoint) {
    && |c.signature| == SIGNATURE_SIZE && ValidPayload(c)
    && HasRow(s, c.sequence, c.headHash) && c.sequence !in s.checkpoints
  }

  function StoreCheckpoint(s: Store, c: Checkpoint): Store {
    if Storable(s, c) then s.(checkpoints := s.checkpoints[c.sequence := c.(createdAt := Micro(c.createdAt))])
    else s
  }

  function LoadCheckpoint(s: Store, sequence: int): Option<Checkpoint> {
    if sequence <= 0 || sequence !in s.checkpoints then None
    else
      var c := s.checkpoints[sequence].(schemaVersion := 1);
      if c.headHash == ZERO || |c.signature| != SIGNATURE_SIZE || !ValidPayload(c) then None else Some(c)
  }

  /** Rows up to a sequence, in table order, which the invariant shows to be sequence order. */
  function Through(rows: seq<Record>, sequence: int): (rs: seq<Record>) {
    if rows == [] then []
    else
      var before, last := Through(rows[..|rows| - 1], sequence), rows[|rows| - 1];
      if last.sequence <= sequence then before + [last] else before
  }

  datatype ReadError = Unreadable | Broken(sequence: int)

  function RecordsThrough(hash: Hasher, s: Store, sequence: int): Result<seq<Record>, ReadError> {
    if sequence <= 0 then Err(Unreadable)
    else
      var rs := Through(s.events, sequence);
      var verdict := Verdict(hash, rs);
      if verdict.Some? then Err(Broken(verdict.value))
      else if rs == [] || rs[|rs| - 1].sequence != sequence then Err(Broken(|rs| + 1))
      else Ok(rs)
  }

  // ---------- registration ----------

  const IDENTIFIER_TYPES := {"model", "backend", "software_version", "content_hmac_key"}

  function Register(s: Store, kind: string, value: string): Store {
    if kind in IDENTIFIER_TYPES && Patterns.IsIdentifier(value) then s.(identifiers := s.identifiers + {(kind, value)})
    else s
  }

  function AddPrincipal(s: Store, id: string): Store { s.(principals := s.principals + {id}) }

  // ---------- runs ----------

  datatype Step =
    | BeginStep(event: Event)
    | LockStep(i: nat)
    | InsertStep(i: nat)
    | CommitStep(i: nat)
    | RollbackStep(i: nat)
    | CheckpointStep(c: Checkpoint)
    | RegisterStep(kind: string, value: string)
    | PrincipalStep(id: string)

  function Apply(hash: Hasher, s: Store, step: Step): Store {
    match step
    case BeginStep(e) => Begin(s, e)
    case LockStep(i) => LockHead(s, i)
    case InsertStep(i) => Insert(hash, s, i)
    case CommitStep(i) => Commit(s, i)
    case RollbackStep(i) => Rollback(s, i)
    case CheckpointStep(c) => StoreCheckpoint(s, c)
    case RegisterStep(kind, value) => Register(s, kind, value)
    case PrincipalStep(id) => AddPrincipal(s, id)
  }

  function After(hash: Hasher, s: Store, run: seq<Step>): Store {
    if run == [] then s else Apply(hash, After(hash, s, run[..|run| - 1]), run[|run| - 1])
  }

  // ---------- the tables as an object ----------

  class AuditDatabase {
    var events: seq<Record>
    var head: Head
    var lock: Option<nat>
    var txs: seq<Tx>
    var checkpoints: map<int, Checkpoint>
    var identifiers: set<(string, string)>
    var principals: set<string>

    ghost function Snapshot(): Store
      reads this
    {
      Store(events, head, lock, txs, checkpoints, identifiers, principals)
    }

    constructor ()
      ensures Snapshot() == EMPTY
    {
      events, head, lock, txs, checkpoints := [], Head(0, ZERO), None, [], map[];
      identifiers, principals := SEEDED, {};
    }

    method RegisterIdentifier(kind: string, value: string)
      modifies this
      ensures Snapshot() == Register(old(Snapshot()), kind, value)
    {
      if kind in IDENTIFIER_TYPES && Patterns.IsIdentifier(value) { identifiers := identifiers + {(kind, value)}; }
    }

    method BeginAppend(e: Event) returns (i: nat)
      modifies this
      ensures Snapshot() == Begin(old(Snapshot()), e) && i == |old(txs)|
    {
      hide Acceptable;
      i := |txs|;
      txs := txs + [if Acceptable(e) then Begun(e) else Failed];
    }

    method RollbackAppend(i: nat)
      modifies this
      ensures Snapshot() == Rollback(old(Snapshot()), i)
    {
      if i < |txs| && Open(txs[i]) {
        txs := txs[i := Failed];
        if lock == Some(i) { lock := None; }
      }
    }

    method LockAuditChainHead(i: nat)
      modifies this
      ensures Snapshot() == LockHead(old(Snapshot()), i)
    {
      if i < |txs| && txs[i].Begun? && lock.None? {
        lock := Some(i);
        txs := txs[i := Locked(txs[i].event, head)];
      }
    }

    /** The search behind the unique constraint on event ids. */
    method IdTaken(id: string) returns (taken: bool)
      ensures taken <==> Taken(id, events)
    {
      for k := 0 to |events|
        invariant !Taken(id, events[..k])
      {
        if events[k].event.eventId == id { return true; }
      }
      assert events[..|events|] == events;
      taken := false;
    }

    method AppendAuditEvent(hash: Hasher, i: nat)
      modifies this
      ensures Snapshot() == Insert(hash, old(Snapshot()), i)
    {
      hide EventHash, Taken, StateChecks, HashChecks, NumberChecks, CodeChecks, Micro;
      if i >= |txs| || !txs[i].Locked? { return; }
      var tx := txs[i];
      var e := tx.event.(previousHash := tx.head.eventHash);
      var eventHash := EventHash(hash, e);
      var taken := IdTaken(e.eventId);
      var registered := ("model", e.requestedModel) in identifiers && ("backend", e.resolvedBackend) in identifiers &&
        ("software_version", e.softwareVersion) in identifiers && ("content_hmac_key", e.hmacKeyId) in identifiers &&
        e.principalId in principals;
      if eventHash.None? || !registered || e.previousHash != head.eventHash || head.sequence == MAX_SEQUENCE ||
         !TableChecks(e, eventHash.value) || taken {
        RollbackAppend(i);
        return;
      }
      var row := Record(head.sequence + 1, AsStored(e), eventHash.value);
      if row.sequence != tx.head.sequence + 1 {
        RollbackAppend(i);
        return;
      }
      txs := txs[i := Inserted(tx.event, row)];
    }

    method CommitAppend(i: nat)
      modifies this
      ensures Snapshot() == Commit(old(Snapshot()), i)
    {
      if i < |txs| && txs[i].Inserted? {
        var row := txs[i].row;
        events := events + [row];
        head := Head(row.sequence, row.eventHash);
        lock := None;
        txs := txs[i := Committed(txs[i].event, NewAppendReceipt(row.sequence, row.eventHash, row.event.eventType))];
      }
    }

    /** A call without interference; `None` means that it failed, or waits for a head row that another one holds. */
    method Append(hash: Hasher, e: Event, fault: Fault) returns (r: Option<Receipt>)
      modifies this
      ensures Snapshot() == AppendAlone(hash, old(Snapshot()), e, fault)
      ensures r == Outcome(Snapshot(), |old(txs)|)
    {
      hide Begin, LockHead, Insert, Commit, Rollback;
      var i := BeginAppend(e);
      if fault.AtLock? {
        RollbackAppend(i);
      } else {
        LockAuditChainHead(i);
        if fault.AtInsert? {
          RollbackAppend(i);
        } else {
          AppendAuditEvent(hash, i);
          if fault.AtCommit? { RollbackAppend(i); } else { CommitAppend(i); }
        }
      }
      r := if i < |txs| && txs[i].Committed? then Some(txs[i].receipt) else None;
    }

    method PutCheckpoint(c: Checkpoint) returns (ok: bool)
      modifies this
      ensures ok == Storable(old(Snapshot()), c) && Snapshot() == StoreCheckpoint(old(Snapshot()), c)
    {
      hide ValidPayload;
      ok := false;
      if |c.signature| != SIGNATURE_SIZE || !ValidPayload(c) { return; }
      var k := 0;
      while k < |events| && !(events[k].sequence == c.sequence && events[k].eventHash == c.headHash)
        invariant 0 <= k <= |events|
        invariant forall j :: 0 <= j < k ==> !(events[j].sequence == c.sequence && events[j].eventHash == c.headHash)
      {
        k := k + 1;
      }
      if k == |events| || c.sequence in checkpoints { return; }
      checkpoints := checkpoints[c.sequence := c.(createdAt := Micro(c.createdAt))];
      ok := true;
    }

    method ReadThrough(hash: Hasher, sequence: int) returns (r: Result<seq<Record>, ReadError>)
      ensures r == RecordsThrough(hash, Snapshot(), sequence)
    {
      hide Verdict;
      if sequence <= 0 { return Err(Unreadable); }
      var records: seq<Record> := [];
      for k := 0 to |events|
        invariant records == Through(events[..k], sequence)
      {
        assert events[..k + 1][..k] == events[..k];
        if events[k].sequence <= sequence { records := records + [events[k]]; }
      }
      assert events[..|events|] == events;
      var verdict := VerifyChain(hash, records);
      if verdict.Some? { return Err(Broken(verdict.value)); }
      if records == [] || records[|records| - 1].sequence != sequence { return Err(Broken(|records| + 1)); }
      r := Ok(records);
    }
  }
}
