/**
 Chat requests, the budget ledger and the audit tables together. A request that reaches an audit point hands an event to
 an append transaction and waits; the transactions of all requests interleave as in AuditStore, the ledger calls as in
 ChatWorld, and an append returns to its request once its transaction has committed or failed.
 */
module AuditedChat {
  import opened Common
  import opened Ledger
  import opened LedgerInvariants
  import opened Price
  import opened Chat
  import opened ChatWorld
  import AuditEvent
  import AuditChain
  import AuditStore
  import AuditStoreProofs

  /**
   `runs[i]` is the run id of request `i`, `pending[i]` the transaction it is waiting for, and `writers[t]` the request
   that began transaction `t`.
   */
  datatype Full = Full(
    world: World, store: AuditStore.Store, runs: seq<string>, pending: seq<Option<nat>>, writers: seq<nat>)

  const START := Full(QUIET, AuditStore.EMPTY, [], [], [])

  function TypeOf(kind: AuditKind): string {
    match kind
    case RunStarted => "run_started"
    case RunCompleted => "run_completed"
    case RunFailed => "run_failed"
    case RunDenied => "run_denied"
  }

  /** The event that a request at `pc` appends next. */
  function Wanted(pc: Pc): Option<AuditKind> {
    match pc
    case Denying(_) => Some(RunDenied)
    case Starting(_, _, _) => Some(RunStarted)
    case Completing(_, _, _) => Some(RunCompleted)
    case Failing(_) => Some(RunFailed)
    case _ => None
  }

  /** The costs that an event of this kind states, given what the request has done. */
  predicate Costs(kind: AuditKind, s: Summary, reserved: Option<int>, actual: Option<int>) {
    match kind
    case RunDenied => reserved.None? && actual.None?
    case RunStarted => s.hold.Some? && reserved == Some(s.hold.value.1) && actual.None?
    case RunFailed =>
      s.hold.Some? && reserved == Some(s.hold.value.1) && actual == Some(if s.settled.Some? then s.settled.value else 0)
    case RunCompleted => s.hold.Some? && s.settled.Some? && reserved == Some(s.hold.value.1) && actual == s.settled
  }

  /** The usage that an event of this kind states: what the backend reported, and only on completion. */
  predicate Usage(kind: AuditKind, s: Summary, input: Option<int>, output: Option<int>) {
    if kind.RunCompleted?
    then s.answer.Some? && s.answer.value.Answered?
         && input == Some(s.answer.value.promptTokens) && output == Some(s.answer.value.completionTokens)
    else input.None? && output.None?
  }

  /** What the handler writes into an event; the rest of it is free. */
  predicate Describes(e: AuditEvent.Event, run: string, kind: AuditKind, s: Summary) {
    && e.runId == run && e.eventType == TypeOf(kind) && Costs(kind, s, e.reservedCost, e.actualCost)
    && Usage(kind, s, e.inputTokens, e.outputTokens)
  }

  // ---------- steps ----------

  datatype Step =
    | Arrives(run: string)
    | Answers(i: nat, e: Event)
    | Beside(c: Call)
    | Appends(i: nat, event: AuditEvent.Event)
    | Unbuilt(i: nat)
    | Returns(i: nat)
    | Stores(step: AuditStore.Step)

  predicate AtAudit(f: Full, i: nat) {
    && i < |f.world.requests| && i < |f.pending| && i < |f.runs|
    && f.pending[i].None? && Wanted(f.world.requests[i].pc).Some?
  }

  predicate CanAppend(f: Full, i: nat, e: AuditEvent.Event) {
    AtAudit(f, i) &&
    var r := f.world.requests[i]; Describes(e, f.runs[i], Wanted(r.pc).value, Summarise(r.trace))
  }

  /** Admission hands the run id on to the ledger. */
  predicate CanAnswer(f: Full, i: nat, e: Event) {
    && i < |f.pending| && i < |f.runs| && f.pending[i].None? && !e.AppendEnds?
    && (e.Admit? && e.verdict.Allow? ==> e.verdict.runId == Uuid(f.runs[i]))
  }

  predicate CanReturn(f: Full, i: nat) {
    && i < |f.pending| && f.pending[i].Some? && f.pending[i].value < |f.store.txs|
    && var tx := f.store.txs[f.pending[i].value]; tx.Committed? || tx.Failed?
  }

  function ReturnOf(tx: AuditStore.Tx): Event {
    AppendEnds(tx.Committed?, tx.Committed? && tx.receipt.backendAuthorized)
  }

  /** A step that is not possible in a state changes nothing. A fresh run id is one that no request has. */
  function Act(k: Calendar, hash: AuditChain.Hasher, f: Full, step: Step): Full {
    match step
    case Arrives(run) =>
      if run in f.runs then f
      else f.(world := Move(k, f.world, Arrive), runs := f.runs + [run], pending := f.pending + [None])
    case Answers(i, e) => if CanAnswer(f, i, e) then f.(world := Move(k, f.world, Proceed(i, e))) else f
    case Beside(c) => f.(world := Move(k, f.world, Outside(c)))
    case Appends(i, e) =>
      if CanAppend(f, i, e)
      then f.(store := AuditStore.Begin(f.store, e), pending := f.pending[i := Some(|f.store.txs|)],
              writers := f.writers + [i])
      else f
    case Unbuilt(i) =>
      if AtAudit(f, i) then f.(world := Move(k, f.world, Proceed(i, AppendEnds(false, false)))) else f
    case Returns(i) =>
      if CanReturn(f, i)
      then f.(world := Move(k, f.world, Proceed(i, ReturnOf(f.store.txs[f.pending[i].value]))),
              pending := f.pending[i := None])
      else f
    case Stores(s) => if s.BeginStep? then f else f.(store := AuditStore.Apply(hash, f.store, s))
  }

  function Unroll(k: Calendar, hash: AuditChain.Hasher, steps: seq<Step>): Full {
    if steps == [] then START else Act(k, hash, Unroll(k, hash, steps[..|steps| - 1]), steps[|steps| - 1])
  }

  // ---------- the invariant ----------

  /** The stored rows of one run, in table order. */
  function RowsOf(rows: seq<AuditChain.Record>, run: string): seq<AuditChain.Record> {
    if rows == [] then []
    else
      var before, last := RowsOf(rows[..|rows| - 1], run), rows[|rows| - 1];
      if last.event.runId == run then before + [last] else before
  }

  /** The rows are those events, in that order, with the costs of that request. */
  predicate Tells(rows: seq<AuditChain.Record>, run: string, kinds: seq<AuditKind>, s: Summary) {
    |rows| == |kinds| && forall j :: 0 <= j < |rows| ==> Describes(rows[j].event, run, kinds[j], s)
  }

  predicate Shape(f: Full) {
    && |f.runs| == |f.world.requests| == |f.pending| && |f.writers| == |f.store.txs|
    && (forall t :: 0 <= t < |f.writers| ==> f.writers[t] < |f.runs|)
    && forall i, j :: 0 <= i < j < |f.runs| ==> f.runs[i] != f.runs[j]
  }

  /** A committed event of which the request has not heard yet. */
  function Unread(f: Full, i: nat): seq<AuditKind>
    requires Shape(f) && i < |f.runs|
  {
    if f.pending[i].Some? && f.pending[i].value < |f.store.txs| && f.store.txs[f.pending[i].value].Committed?
       && Wanted(f.world.requests[i].pc).Some?
    then [Wanted(f.world.requests[i].pc).value] else []
  }

  predicate PendingOk(f: Full, i: nat)
    requires Shape(f) && i < |f.runs|
  {
    f.pending[i].Some? ==>
      var t, r := f.pending[i].value, f.world.requests[i];
      && t < |f.store.txs| && f.writers[t] == i && Wanted(r.pc).Some?
      && (!f.store.txs[t].Failed? ==> Describes(f.store.txs[t].event, f.runs[i], Wanted(r.pc).value,
                                                Summarise(r.trace)))
  }

  predicate HistoryOk(f: Full, i: nat)
    requires Shape(f) && i < |f.runs|
  {
    var s := Summarise(f.world.requests[i].trace);
    Tells(RowsOf(f.store.events, f.runs[i]), f.runs[i], s.events + Unread(f, i), s)
  }

  /** A transaction that is still open has its writer waiting for it. */
  predicate OpenOk(f: Full)
    requires Shape(f)
  {
    forall t :: 0 <= t < |f.writers| && AuditStore.Open(f.store.txs[t]) ==> f.pending[f.writers[t]] == Some(t)
  }

  predicate RowsOwned(f: Full) { forall n :: 0 <= n < |f.store.events| ==> f.store.events[n].event.runId in f.runs }

  predicate Linked(f: Full) {
    && Shape(f) && OpenOk(f) && RowsOwned(f)
    && (forall i :: 0 <= i < |f.runs| ==> PendingOk(f, i))
    && (forall i :: 0 <= i < |f.runs| ==> HistoryOk(f, i))
  }

  // ---------- what a request's own steps do to its events ----------

  /** What later steps may change about a request without changing what its events state. */
  predicate Persists(s: Summary, s': Summary) {
    && s'.events == s.events
    && (s.events != [] ==> s'.hold == s.hold)
    && (s.events != [] && s.events != [RunStarted] ==> s'.settled == s.settled && s'.answer == s.answer)
  }

  lemma AdvanceKeepsEvents(r: Request, e: Event)
    requires !e.AppendEnds?
    ensures Summarise(Advance(r, e).trace).events == Summarise(r.trace).events
  {
    hide SettlementCost, EstimateMaxCostMicros, UsageCost, Estimated;
    var r' := Advance(r, e);
    if r'.trace != r.trace {
      assert r' == Note(r, r'.pc, r'.trace[|r.trace|..]);
      QuietNotes(r, r'.pc, r'.trace[|r.trace|..]);
    }
  }

  predicate Quiet(e: Effect) { !e.Audited? }

  lemma QuietNotes(r: Request, pc: Pc, effects: seq<Effect>)
    requires |effects| <= 2 && forall j :: 0 <= j < |effects| ==> Quiet(effects[j])
    ensures Summarise(Note(r, pc, effects).trace).events == Summarise(r.trace).events
  {
    hide Summarise, UsageCost, Estimated;
    if |effects| == 0 {
      assert r.trace + effects == r.trace;
    } else if |effects| == 1 {
      OneMore(r.trace, effects[0]);
      assert effects == [effects[0]];
    } else {
      OneMore(r.trace, effects[0]);
      OneMore(r.trace + [effects[0]], effects[1]);
      assert r.trace + effects == r.trace + [effects[0]] + [effects[1]];
    }
  }

  /** An append adds its event to the request's history exactly when it committed. */
  lemma AppendNotes(r: Request, committed: bool, authorises: bool)
    requires Wanted(r.pc).Some?
    ensures var r' := Advance(r, AppendEnds(committed, authorises));
            && Summarise(r'.trace).events ==
               Summarise(r.trace).events + (if committed then [Wanted(r.pc).value] else [])
            && Summarise(r'.trace).answer == Summarise(r.trace).answer
  {
    hide Summarise, UsageCost, Estimated;
    var r' := Advance(r, AppendEnds(committed, authorises));
    var first := if committed then Audited(Wanted(r.pc).value) else AuditLost(Wanted(r.pc).value);
    OneMore(r.trace, first);
    if r'.pc.Done? {
      OneMore(r.trace + [first], Replied(r'.pc.status));
      assert r'.trace == r.trace + [first] + [Replied(r'.pc.status)];
    } else {
      assert r'.trace == r.trace + [first];
    }
  }

  lemma ReservingKeepsEvents(k: Calendar, t: Tables, r: Request, reached: bool, now: int)
    requires r.pc.Holding?
    ensures Summarise(Reserving(k, t, r, reached, now).1.trace).events == Summarise(r.trace).events
  {
    hide Reserve, Summarise, UsageCost, Estimated;
    var r' := Reserving(k, t, r, reached, now).1;
    var effects := if r'.pc.Starting? then [HoldTaken(r'.pc.id, r.pc.order.max)]
                   else if r'.pc.Denying? then [HoldRefused] else [HoldRefused, Replied(503)];
    QuietNotes(r, r'.pc, effects);
  }

  lemma SettlingKeepsEvents(k: Calendar, t: Tables, r: Request, reached: bool, now: int)
    requires r.pc.Settling?
    ensures Summarise(SettlingNow(k, t, r, reached, now).1.trace).events == Summarise(r.trace).events
  {
    hide Settle, Summarise, UsageCost, Estimated;
    var r' := SettlingNow(k, t, r, reached, now).1;
    var res := if reached then Settle(k, t, r.pc.id, Some(r.pc.actual), now).1 else Err(Error.Unavailable);
    var effect := if res.Ok? then HoldSettled(r.pc.id, res.value) else SettleLost(r.pc.id);
    QuietNotes(r, r'.pc, if r.pc.next.ThenReply? then [effect, Replied(r.pc.next.status)] else [effect]);
  }

  /** A step that is no append keeps what the request's events state. */
  lemma AnswerPersists(k: Calendar, t: Tables, r: Request, e: Event)
    requires RequestOk(r) && !e.AppendEnds?
    requires e.LedgerEnds? && r.pc.Settling? ==> r.pc.id < |t.rows| && t.rows[r.pc.id].max == r.pc.max
    ensures Persists(Summarise(r.trace), Summarise(StepRequest(k, t, r, e).1.trace))
  {
    hide Summarise, Orderly, Reserving, SettlingNow, Advance, UsageCost, Estimated;
    if e.LedgerEnds? && r.pc.Holding? {
      ReservingKeepsEvents(k, t, r, e.reached, e.now);
    } else if e.LedgerEnds? && r.pc.Settling? {
      SettlingKeepsEvents(k, t, r, e.reached, e.now);
      SettlingKeepsOrder(k, t, r, e.reached, e.now);
    } else {
      AdvanceKeepsEvents(r, e);
      AdvanceKeepsOrder(r, e);
      if !r.pc.Received? && !r.pc.Calling? { OnlyAppendsMoveOn(r, e); }
    }
  }

  lemma OnlyAppendsMoveOn(r: Request, e: Event)
    requires !e.AppendEnds? && !r.pc.Received? && !r.pc.Calling?
    ensures Advance(r, e) == r
  {
  }

  lemma DescribesPersists(e: AuditEvent.Event, run: string, kind: AuditKind, s: Summary, s': Summary)
    requires Describes(e, run, kind, s) && s'.hold == s.hold
    requires kind.RunStarted? || (s'.settled == s.settled && s'.answer == s.answer)
    ensures Describes(e, run, kind, s')
  {
  }

  lemma TellsPersists(rows: seq<AuditChain.Record>, run: string, s: Summary, s': Summary)
    requires Tells(rows, run, s.events, s) && Persists(s, s')
    ensures Tells(rows, run, s'.events, s')
  {
    hide Describes;
    forall j | 0 <= j < |rows| ensures Describes(rows[j].event, run, s.events[j], s') {
      DescribesPersists(rows[j].event, run, s.events[j], s, s');
    }
  }

  // ---------- every step keeps the link ----------

  lemma RowsOfAppend(rows: seq<AuditChain.Record>, r: AuditChain.Record, run: string)
    ensures RowsOf(rows + [r], run) == if r.event.runId == run then RowsOf(rows, run) + [r] else RowsOf(rows, run)
  {
    assert (rows + [r])[..|rows|] == rows;
  }

  /** Only request `i` differs. */
  predicate OnlyRequest(f: Full, f': Full, i: nat) {
    && f'.store == f.store && f'.runs == f.runs && f'.writers == f.writers
    && |f'.world.requests| == |f.world.requests| && i < |f.world.requests|
    && forall j :: 0 <= j < |f.world.requests| && j != i ==> f'.world.requests[j] == f.world.requests[j]
  }

  lemma RequestMovesOn(f: Full, f': Full, i: nat)
    requires Linked(f) && OnlyRequest(f, f', i) && f'.pending == f.pending && f.pending[i].None?
    requires Persists(Summarise(f.world.requests[i].trace), Summarise(f'.world.requests[i].trace))
    ensures Linked(f')
  {
    hide Describes, Summarise, Persists, Tells, RowsOf;
    forall j | 0 <= j < |f'.runs| ensures PendingOk(f', j) && HistoryOk(f', j) {
      assert PendingOk(f, j) && HistoryOk(f, j);
      if j == i {
        var s, s' := Summarise(f.world.requests[i].trace), Summarise(f'.world.requests[i].trace);
        assert s.events + [] == s.events && s'.events + [] == s'.events;
        TellsPersists(RowsOf(f.store.events, f.runs[i]), f.runs[i], s, s');
      }
    }
  }

  lemma TellsSame(rows: seq<AuditChain.Record>, run: string, kinds: seq<AuditKind>, s: Summary, s': Summary)
    requires Tells(rows, run, kinds, s) && s'.hold == s.hold && s'.settled == s.settled && s'.answer == s.answer
    ensures Tells(rows, run, kinds, s')
  {
    hide Describes;
    forall j | 0 <= j < |rows| ensures Describes(rows[j].event, run, kinds[j], s') {
      DescribesPersists(rows[j].event, run, kinds[j], s, s');
    }
  }

  /** The append of request `i` has returned: the request now knows of the event, if there is one. */
  lemma AppendReturned(f: Full, f': Full, i: nat)
    requires Linked(f) && OnlyRequest(f, f', i) && CanReturn(f, i) && f'.pending == f.pending[i := None]
    requires var s, s' := Summarise(f.world.requests[i].trace), Summarise(f'.world.requests[i].trace);
             && s'.hold == s.hold && s'.settled == s.settled && s'.answer == s.answer
             && s'.events == s.events + Unread(f, i)
    ensures Linked(f')
  {
    hide Describes, Summarise, Tells, RowsOf;
    forall j | 0 <= j < |f'.runs| ensures PendingOk(f', j) && HistoryOk(f', j) {
      assert PendingOk(f, j) && HistoryOk(f, j);
      if j == i {
        var s, s' := Summarise(f.world.requests[i].trace), Summarise(f'.world.requests[i].trace);
        assert s'.events + [] == s'.events;
        TellsSame(RowsOf(f.store.events, f.runs[i]), f.runs[i], s'.events, s, s');
      }
    }
    forall t | 0 <= t < |f'.writers| && AuditStore.Open(f'.store.txs[t]) ensures f'.pending[f'.writers[t]] == Some(t) {
      assert f.pending[f.writers[t]] == Some(t);
    }
  }

  lemma AppendBegun(k: Calendar, hash: AuditChain.Hasher, f: Full, i: nat, e: AuditEvent.Event)
    requires Linked(f) && CanAppend(f, i, e)
    ensures Linked(Act(k, hash, f, Appends(i, e)))
  {
    hide Describes, Summarise, Tells, RowsOf, AuditStore.Acceptable;
    var f' := Act(k, hash, f, Appends(i, e));
    forall j | 0 <= j < |f'.runs| ensures PendingOk(f', j) && HistoryOk(f', j) {
      assert PendingOk(f, j) && HistoryOk(f, j);
    }
    forall t | 0 <= t < |f'.writers| && AuditStore.Open(f'.store.txs[t]) ensures f'.pending[f'.writers[t]] == Some(t) {
      assert t < |f.writers| ==> f.pending[f.writers[t]] == Some(t);
    }
  }

  /** A transaction that moves on without committing: it stays open with its event, or fails. */
  predicate MovesOn(tx: AuditStore.Tx, tx': AuditStore.Tx) {
    tx' == tx || (AuditStore.Open(tx) && (tx'.Failed? || (AuditStore.Open(tx') && tx'.event == tx.event)))
  }

  lemma StoreMovesOn(f: Full, f': Full)
    requires Linked(f) && f' == f.(store := f'.store) && f'.store.events == f.store.events
    requires |f'.store.txs| == |f.store.txs|
    requires forall t :: 0 <= t < |f.store.txs| ==> MovesOn(f.store.txs[t], f'.store.txs[t])
    ensures Linked(f')
  {
    hide Describes, Summarise, Tells, RowsOf;
    forall j | 0 <= j < |f'.runs| ensures PendingOk(f', j) && HistoryOk(f', j) {
      assert PendingOk(f, j) && HistoryOk(f, j);
      assert f.pending[j].Some? ==> MovesOn(f.store.txs[f.pending[j].value], f'.store.txs[f.pending[j].value]);
    }
    forall t | 0 <= t < |f'.writers| && AuditStore.Open(f'.store.txs[t]) ensures f'.pending[f'.writers[t]] == Some(t) {
      assert MovesOn(f.store.txs[t], f'.store.txs[t]);
    }
  }

  lemma StepsMoveOn(hash: AuditChain.Hasher, s: AuditStore.Store, step: AuditStore.Step)
    requires !step.BeginStep? && !step.CommitStep?
    ensures var s' := AuditStore.Apply(hash, s, step);
            && s'.events == s.events && |s'.txs| == |s.txs|
            && forall t :: 0 <= t < |s.txs| ==> MovesOn(s.txs[t], s'.txs[t])
  {
    hide AuditStore.RowFor, AuditStore.Storable;
  }

  /** Committing appends the one event that its writer is waiting for. */
  lemma CommitKeepsLink(hash: AuditChain.Hasher, f: Full, t: nat)
    requires Linked(f) && AuditStoreProofs.Inv(hash, f.store) && AuditStore.HasInserted(f.store, t)
    ensures Linked(f.(store := AuditStore.Commit(f.store, t)))
  {
    hide Describes, Summarise, AuditStoreProofs.Inv, RowsOf, AuditStore.ReceiptOf;
    var f' := f.(store := AuditStore.Commit(f.store, t));
    var i, row := f.writers[t], f.store.txs[t].row;
    assert f.pending[i] == Some(t);
    assert PendingOk(f, i);
    RowIsEvent(hash, f.store, t);
    RowDescribes(f.store.txs[t].event, row, f.runs[i], Wanted(f.world.requests[i].pc).value,
                 Summarise(f.world.requests[i].trace));
    forall j | 0 <= j < |f'.runs| ensures PendingOk(f', j) && HistoryOk(f', j) {
      assert PendingOk(f, j) && HistoryOk(f, j);
      RowsOfAppend(f.store.events, row, f.runs[j]);
      if j == i {
        var s := Summarise(f.world.requests[i].trace);
        assert s.events + [] == s.events;
      } else {
        assert f.runs[j] != f.runs[i];
        assert f.pending[j] != Some(t);
      }
    }
  }

  lemma RowIsEvent(hash: AuditChain.Hasher, s: AuditStore.Store, t: nat)
    requires AuditStoreProofs.Inv(hash, s) && AuditStore.HasInserted(s, t)
    ensures var row := s.txs[t].row; row.event == s.txs[t].event.(previousHash := row.event.previousHash)
  {
    hide AuditChain.ValidChain, AuditChain.EventHash, AuditStore.Taken, AuditStoreProofs.ReceiptsDistinct;
    AuditStoreProofs.TxAt(hash, s, t);
  }

  lemma RowDescribes(e: AuditEvent.Event, row: AuditChain.Record, run: string, kind: AuditKind, s: Summary)
    requires Describes(e, run, kind, s) && row.event == e.(previousHash := row.event.previousHash)
    ensures Describes(row.event, run, kind, s) && row.event.runId == run
  {
  }

  // ---------- the ledger agrees with the trace ----------

  /** The hold of a request is a row of its run, and what the request settled is what the row was charged. */
  predicate Booked(rows: seq<Reservation>, run: string, r: Request) {
    var s := Summarise(r.trace);
    && (r.pc.Holding? ==> r.pc.order.runId == Uuid(run))
    && (s.hold.Some? ==> s.hold.value.0 < |rows| && rows[s.hold.value.0].runId == Uuid(run))
    && (s.settled.Some? ==>
          s.hold.Some? && rows[s.hold.value.0].state.Settled? && rows[s.hold.value.0].settledActual == s.settled)
  }

  predicate AllBooked(f: Full) {
    |f.runs| == |f.world.requests| && forall i :: 0 <= i < |f.runs| ==>
        Booked(f.world.tables.rows, f.runs[i], f.world.requests[i])
  }

  /** Rows that at most advance keep a request booked. */
  lemma BookedStays(rows: seq<Reservation>, rows': seq<Reservation>, run: string, r: Request)
    requires Booked(rows, run, r) && |rows| <= |rows'|
    requires forall id :: 0 <= id < |rows| ==> RowAdvance(rows[id], rows'[id])
    ensures Booked(rows', run, r)
  {
    hide Summarise, RowAdvance;
    var s := Summarise(r.trace);
    if s.hold.Some? { AdvanceKeepsSettled(rows[s.hold.value.0], rows'[s.hold.value.0]); }
  }

  lemma AdvanceKeepsSettled(r: Reservation, r': Reservation)
    requires RowAdvance(r, r')
    ensures r'.runId == r.runId && (r.state.Settled? ==> r' == r)
  {
  }

  lemma ReserveAdvances(k: Calendar, t: Tables, r: Request, reached: bool, now: int)
    requires r.pc.Holding?
    ensures var t' := Reserving(k, t, r, reached, now).0;
            |t.rows| <= |t'.rows| && forall id :: 0 <= id < |t.rows| ==> RowAdvance(t.rows[id], t'.rows[id])
  {
    hide RollPeriods, AccountChecks, RowChecks;
  }

  lemma HoldIsBooked(k: Calendar, t: Tables, run: string, r: Request, reached: bool, now: int)
    requires RequestOk(r) && r.pc.Holding? && Booked(t.rows, run, r)
    ensures var (t', r') := Reserving(k, t, r, reached, now); Booked(t'.rows, run, r')
  {
    hide Summarise, RollPeriods, AccountChecks, RowChecks, Orderly;
    ReservingKeepsOrder(k, t, r, reached, now);
    var r' := Reserving(k, t, r, reached, now).1;
    assert Stands(r'.pc, Summarise(r'.trace)) && Stands(r.pc, Summarise(r.trace));
  }

  lemma SettleAdvances(k: Calendar, t: Tables, r: Request, reached: bool, now: int)
    requires r.pc.Settling?
    ensures var t' := SettlingNow(k, t, r, reached, now).0;
            |t.rows| == |t'.rows| && forall id :: 0 <= id < |t.rows| ==> RowAdvance(t.rows[id], t'.rows[id])
  {
    hide RollPeriods, AccountChecks, RowChecks;
  }

  /** The amount that the trace records as settled is the amount in the row. */
  lemma SettlementIsBooked(k: Calendar, t: Tables, run: string, r: Request, reached: bool, now: int)
    requires RequestOk(r) && r.pc.Settling? && Booked(t.rows, run, r)
    requires r.pc.id < |t.rows| && t.rows[r.pc.id].max == r.pc.max
    ensures var (t', r') := SettlingNow(k, t, r, reached, now); Booked(t'.rows, run, r')
  {
    hide Summarise, RollPeriods, AccountChecks, RowChecks, Orderly, UsageCost, Estimated;
    SettlingKeepsOrder(k, t, r, reached, now);
    SettleAdvances(k, t, r, reached, now);
    var (t', r') := SettlingNow(k, t, r, reached, now);
    var res := Settle(k, t, r.pc.id, Some(r.pc.actual), now).1;
    if reached && res.Ok? {
      var effect := HoldSettled(r.pc.id, res.value);
      OneMore(r.trace, effect);
      if r.pc.next.ThenReply? {
        OneMore(r.trace + [effect], Replied(r.pc.next.status));
        assert r'.trace == r.trace + [effect] + [Replied(r.pc.next.status)];
      }
    }
  }

  lemma AdvanceIsBooked(t: Tables, run: string, r: Request, e: Event)
    requires RequestOk(r) && Booked(t.rows, run, r) && (e.Admit? && e.verdict.Allow? ==> e.verdict.runId == Uuid(run))
    ensures Booked(t.rows, run, Advance(r, e))
  {
    hide Summarise, Orderly, SettlementCost, EstimateMaxCostMicros;
    AdvanceKeepsOrder(r, e);
  }

  lemma StepIsBooked(k: Calendar, t: Tables, run: string, r: Request, e: Event)
    requires RequestOk(r) && Booked(t.rows, run, r) && (e.Admit? && e.verdict.Allow? ==> e.verdict.runId == Uuid(run))
    requires e.LedgerEnds? && r.pc.Settling? ==> r.pc.id < |t.rows| && t.rows[r.pc.id].max == r.pc.max
    ensures var (t', r') := StepRequest(k, t, r, e);
            && Booked(t'.rows, run, r') && |t.rows| <= |t'.rows|
            && forall id :: 0 <= id < |t.rows| ==> RowAdvance(t.rows[id], t'.rows[id])
  {
    hide Booked, RequestOk, Reserving, SettlingNow, Advance;
    if e.LedgerEnds? && r.pc.Holding? {
      HoldIsBooked(k, t, run, r, e.reached, e.now);
      ReserveAdvances(k, t, r, e.reached, e.now);
    } else if e.LedgerEnds? && r.pc.Settling? {
      SettlementIsBooked(k, t, run, r, e.reached, e.now);
      SettleAdvances(k, t, r, e.reached, e.now);
    } else {
      AdvanceIsBooked(t, run, r, e);
    }
  }

  // ---------- every interleaving ----------

  ghost predicate FullOk(k: Calendar, hash: AuditChain.Hasher, f: Full) {
    WorldOk(k, f.world) && AuditStoreProofs.Inv(hash, f.store) && Linked(f) && AllBooked(f)
  }

  /** In a consistent world a settling request still has its row. */
  lemma SettlingRow(k: Calendar, w: World, i: nat)
    requires WorldOk(k, w) && i < |w.requests| && w.requests[i].pc.Settling?
    ensures var pc := w.requests[i].pc; pc.id < |w.tables.rows| && w.tables.rows[pc.id].max == pc.max
  {
    hide Inv, Summarise, Orderly;
    assert RequestOk(w.requests[i]);
    SettlingHold(w.requests[i]);
  }

  /** One request takes a step in the world: it stays booked, and so do all others. */
  lemma ProceedKeepsBooks(k: Calendar, f: Full, f': Full, i: nat, e: Event)
    requires WorldOk(k, f.world) && AllBooked(f) && i < |f.runs| && f'.runs == f.runs
    requires e.Admit? && e.verdict.Allow? ==> e.verdict.runId == Uuid(f.runs[i])
    requires f'.world == Move(k, f.world, Proceed(i, e))
    ensures AllBooked(f')
  {
    hide Inv, Booked, RequestOk, StepRequest, Matched, OpenHoldsAccounted, RowAdvance;
    var r, t := f.world.requests[i], f.world.tables;
    assert RequestOk(r);
    if r.pc.Settling? { SettlingRow(k, f.world, i); }
    StepIsBooked(k, t, f.runs[i], r, e);
    forall j | 0 <= j < |f.runs| && j != i ensures Booked(f'.world.tables.rows, f.runs[j], f.world.requests[j]) {
      BookedStays(t.rows, f'.world.tables.rows, f.runs[j], f.world.requests[j]);
    }
  }

  lemma AnswerKeeps(k: Calendar, hash: AuditChain.Hasher, f: Full, i: nat, e: Event)
    requires ValidCalendar(k) && FullOk(k, hash, f)
    ensures FullOk(k, hash, Act(k, hash, f, Answers(i, e)))
  {
    hide AuditStoreProofs.Inv, ValidCalendar, Inv, RequestOk, Matched, OpenHoldsAccounted, HistoryOk, PendingOk,
         StepRequest, Booked,
         Persists;
    if CanAnswer(f, i, e) {
      var f' := Act(k, hash, f, Answers(i, e));
      MoveKeepsWorld(k, f.world, Proceed(i, e));
      ProceedKeepsBooks(k, f, f', i, e);
      if f.world.requests[i].pc.Settling? { SettlingRow(k, f.world, i); }
      AnswerPersists(k, f.world.tables, f.world.requests[i], e);
      RequestMovesOn(f, f', i);
    }
  }

  lemma UnbuiltKeeps(k: Calendar, hash: AuditChain.Hasher, f: Full, i: nat)
    requires ValidCalendar(k) && FullOk(k, hash, f)
    ensures FullOk(k, hash, Act(k, hash, f, Unbuilt(i)))
  {
    hide AuditStoreProofs.Inv, ValidCalendar, Inv, RequestOk, Matched, OpenHoldsAccounted, HistoryOk, PendingOk,
         Advance, Booked,
         Summarise;
    if AtAudit(f, i) {
      var f', e := Act(k, hash, f, Unbuilt(i)), AppendEnds(false, false);
      var r := f.world.requests[i];
      MoveKeepsWorld(k, f.world, Proceed(i, e));
      ProceedKeepsBooks(k, f, f', i, e);
      AppendNotes(r, false, false);
      AppendKeepsOrder(r, false, false);
      assert Summarise(r.trace).events + [] == Summarise(r.trace).events;
      RequestMovesOn(f, f', i);
    }
  }

  lemma ReturnKeeps(k: Calendar, hash: AuditChain.Hasher, f: Full, i: nat)
    requires ValidCalendar(k) && FullOk(k, hash, f)
    ensures FullOk(k, hash, Act(k, hash, f, Returns(i)))
  {
    hide AuditStoreProofs.Inv, ValidCalendar, Inv, RequestOk, Matched, OpenHoldsAccounted, HistoryOk, Advance, Booked,
         Summarise,
         Describes;
    if CanReturn(f, i) {
      assert PendingOk(f, i);
      var f', e := Act(k, hash, f, Returns(i)), ReturnOf(f.store.txs[f.pending[i].value]);
      var r := f.world.requests[i];
      MoveKeepsWorld(k, f.world, Proceed(i, e));
      ProceedKeepsBooks(k, f, f', i, e);
      AppendNotes(r, e.committed, e.authorises);
      AppendKeepsOrder(r, e.committed, e.authorises);
      AppendReturned(f, f', i);
    }
  }

  lemma ArrivalKeeps(k: Calendar, hash: AuditChain.Hasher, f: Full, run: string)
    requires ValidCalendar(k) && FullOk(k, hash, f)
    ensures FullOk(k, hash, Act(k, hash, f, Arrives(run)))
  {
    hide AuditStoreProofs.Inv, ValidCalendar, Inv, Describes, RowsOf;
    if run !in f.runs {
      MoveKeepsWorld(k, f.world, Arrive);
      var f' := Act(k, hash, f, Arrives(run));
      assert Summarise([]) == NOTHING;
      NoRowsOf(f.store.events, run, f.runs);
      forall j | 0 <= j < |f'.runs| ensures PendingOk(f', j) && HistoryOk(f', j) {
        if j < |f.runs| { assert PendingOk(f, j) && HistoryOk(f, j); }
      }
    }
  }

  lemma {:induction false} NoRowsOf(rows: seq<AuditChain.Record>, run: string, runs: seq<string>)
    requires run !in runs && forall n :: 0 <= n < |rows| ==> rows[n].event.runId in runs
    ensures RowsOf(rows, run) == []
  {
    if rows != [] { NoRowsOf(rows[..|rows| - 1], run, runs); }
  }

  lemma BesideKeeps(k: Calendar, hash: AuditChain.Hasher, f: Full, c: Call)
    requires ValidCalendar(k) && FullOk(k, hash, f)
    ensures FullOk(k, hash, Act(k, hash, f, Beside(c)))
  {
    hide AuditStoreProofs.Inv, ValidCalendar, Inv, Describes, RowsOf, Summarise, Apply, Booked, RowAdvance, Matched,
         OpenHoldsAccounted;
    MoveKeepsWorld(k, f.world, Outside(c));
    var f' := Act(k, hash, f, Beside(c));
    if !c.CallReserve? {
      ApplyAdvances(k, f.world.tables, c);
      forall j | 0 <= j < |f.runs| ensures Booked(f'.world.tables.rows, f.runs[j], f.world.requests[j]) {
        BookedStays(f.world.tables.rows, f'.world.tables.rows, f.runs[j], f.world.requests[j]);
      }
    }
    forall j | 0 <= j < |f'.runs| ensures PendingOk(f', j) && HistoryOk(f', j) {
      assert PendingOk(f, j) && HistoryOk(f, j);
    }
  }

  lemma StoreKeeps(k: Calendar, hash: AuditChain.Hasher, f: Full, step: AuditStore.Step)
    requires FullOk(k, hash, f)
    ensures FullOk(k, hash, Act(k, hash, f, Stores(step)))
  {
    hide AuditStoreProofs.Inv, WorldOk, Booked, Linked, MovesOn, AuditStore.Commit;
    AuditStoreProofs.ApplyKeepsInv(hash, f.store, step);
    if step.CommitStep? {
      if AuditStore.HasInserted(f.store, step.i) {
        CommitKeepsLink(hash, f, step.i);
      } else {
        IdleCommit(f.store, step.i);
      }
    } else if !step.BeginStep? {
      StepsMoveOn(hash, f.store, step);
      StoreMovesOn(f, f.(store := AuditStore.Apply(hash, f.store, step)));
    }
  }

  lemma IdleCommit(s: AuditStore.Store, i: nat)
    requires !AuditStore.HasInserted(s, i)
    ensures AuditStore.Commit(s, i) == s
  {
  }

  lemma AppendKeeps(k: Calendar, hash: AuditChain.Hasher, f: Full, i: nat, e: AuditEvent.Event)
    requires FullOk(k, hash, f)
    ensures FullOk(k, hash, Act(k, hash, f, Appends(i, e)))
  {
    hide AuditStoreProofs.Inv, WorldOk, Booked, Linked, CanAppend, AuditStore.Begin;
    if CanAppend(f, i, e) {
      AppendBegun(k, hash, f, i, e);
      AuditStoreProofs.BeginKeepsInv(hash, f.store, e);
    }
  }

  lemma ActKeeps(k: Calendar, hash: AuditChain.Hasher, f: Full, step: Step)
    requires ValidCalendar(k) && FullOk(k, hash, f)
    ensures FullOk(k, hash, Act(k, hash, f, step))
  {
    hide FullOk, ValidCalendar, Act;
    match step
    case Arrives(run) => ArrivalKeeps(k, hash, f, run);
    case Answers(i, e) => AnswerKeeps(k, hash, f, i, e);
    case Beside(c) => BesideKeeps(k, hash, f, c);
    case Appends(i, e) => AppendKeeps(k, hash, f, i, e);
    case Unbuilt(i) => UnbuiltKeeps(k, hash, f, i);
    case Returns(i) => ReturnKeeps(k, hash, f, i);
    case Stores(s) => StoreKeeps(k, hash, f, s);
  }

  lemma {:induction false} FullOkAlways(k: Calendar, hash: AuditChain.Hasher, steps: seq<Step>)
    requires ValidCalendar(k)
    ensures FullOk(k, hash, Unroll(k, hash, steps))
  {
    hide FullOk, ValidCalendar, Act;
    if steps == [] {
      StartOk(k, hash);
    } else {
      FullOkAlways(k, hash, steps[..|steps| - 1]);
      ActKeeps(k, hash, Unroll(k, hash, steps[..|steps| - 1]), steps[|steps| - 1]);
    }
  }

  lemma StartOk(k: Calendar, hash: AuditChain.Hasher)
    requires ValidCalendar(k)
    ensures FullOk(k, hash, START)
  {
    hide AuditStoreProofs.Inv, WorldOk, ValidCalendar;
    WorldOkAlways(k, []);
    assert Unfold(k, []) == QUIET;
    AuditStoreProofs.EmptyInv(hash);
  }

  // ---------- the theorems ----------

  /** A trace with a reply ends in it, so the conditions for that reply hold of all that was done. */
  lemma ReplyMeans(trace: seq<Effect>, status: int)
    requires Orderly(trace) && Summarise(trace).reply == Some(status)
    ensures var s := Summarise(trace);
            && (status == 200 ==>
                  && s.events == [RunStarted, RunCompleted] && s.hold.Some? && s.settled == Some(Owed(s))
                  && s.allowed.Some? && s.answer.Some? && s.answer.value.Answered?)
            && (status == 402 || status == 403 ==> s.events == [RunDenied])
  {
    hide MayFollow, Observe;
    var n := |trace| - 1;
    assert MayFollow(Summarise(trace[..n]), trace[n]);
    LastIsReply(Summarise(trace[..n]), trace[n], status);
  }

  /** Every hold was taken for the estimate of the admitted body. */
  lemma {:induction false} HoldIsEstimate(trace: seq<Effect>)
    requires Orderly(trace) && Summarise(trace).hold.Some?
    ensures Estimated(Summarise(trace).allowed, Summarise(trace).hold.value.1)
  {
    hide MayFollow, Observe, Estimated;
    var n := |trace| - 1;
    assert MayFollow(Summarise(trace[..n]), trace[n]);
    if Summarise(trace[..n]).hold.Some? {
      assert forall j :: 0 <= j < n ==> trace[..n][..j] == trace[..j];
      HoldIsEstimate(trace[..n]);
    }
    EstimateStays(Summarise(trace[..n]), trace[n]);
  }

  lemma EstimateStays(s: Summary, e: Effect)
    requires MayFollow(s, e) && Observe(s, e).hold.Some?
    requires s.hold.Some? ==> Estimated(s.allowed, s.hold.value.1)
    ensures Estimated(Observe(s, e).allowed, Observe(s, e).hold.value.1)
  {
    hide Estimated, UsageCost, LegalEvents;
  }

  lemma LastIsReply(s: Summary, e: Effect, status: int)
    requires MayFollow(s, e) && Observe(s, e).reply == Some(status)
    ensures var s' := Observe(s, e);
            && (status == 200 ==>
                  && s'.events == [RunStarted, RunCompleted] && s'.hold.Some? && s'.settled == Some(Owed(s'))
                  && s'.allowed.Some? && s'.answer.Some? && s'.answer.value.Answered?)
            && (status == 402 || status == 403 ==> s'.events == [RunDenied])
  {
    hide UsageCost, Estimated, LegalEvents;
  }

  lemma {:induction false} BackendNeedsStart(trace: seq<Effect>)
    requires Orderly(trace) && Summarise(trace).backendCalls > 0
    ensures Summarise(trace).events != [] && Summarise(trace).events[0] == RunStarted
  {
    hide MayFollow, Observe;
    var n := |trace| - 1;
    assert MayFollow(Summarise(trace[..n]), trace[n]);
    if Summarise(trace[..n]).backendCalls > 0 {
      assert forall j :: 0 <= j < n ==> trace[..n][..j] == trace[..j];
      BackendNeedsStart(trace[..n]);
    }
    StartStays(Summarise(trace[..n]), trace[n]);
  }

  lemma StartStays(s: Summary, e: Effect)
    requires MayFollow(s, e) && Observe(s, e).backendCalls > 0
    requires s.backendCalls > 0 ==> s.events != [] && s.events[0] == RunStarted
    ensures Observe(s, e).events != [] && Observe(s, e).events[0] == RunStarted
  {
    hide UsageCost, Estimated, LegalEvents;
  }

  lemma RequestOfRun(k: Calendar, hash: AuditChain.Hasher, f: Full, i: nat)
    requires FullOk(k, hash, f) && i < |f.runs|
    ensures |f.runs| == |f.world.requests| == |f.pending| && RequestOk(f.world.requests[i]) && Shape(f)
    ensures HistoryOk(f, i) && PendingOk(f, i) && Booked(f.world.tables.rows, f.runs[i], f.world.requests[i])
  {
    hide AuditStoreProofs.Inv, Inv, RequestOk, HistoryOk, PendingOk, Booked, Matched;
  }

  /**
   In every interleaving the stored rows of a run are exactly the events that its request has recorded, in order and
   with the request's own costs, plus at most the one it is about to hear of; and every stored row belongs to some
   request.
   */
  lemma StoredEventsAreTheTrace(k: Calendar, hash: AuditChain.Hasher, steps: seq<Step>, i: nat)
    requires ValidCalendar(k) && i < |Unroll(k, hash, steps).runs|
    ensures var f := Unroll(k, hash, steps);
            && Shape(f) && RowsOwned(f)
            && var s := Summarise(f.world.requests[i].trace);
               && Tells(RowsOf(f.store.events, f.runs[i]), f.runs[i], s.events + Unread(f, i), s)
               && (f.pending[i].None? ==> Tells(RowsOf(f.store.events, f.runs[i]), f.runs[i], s.events, s))
  {
    hide Unroll, AuditStoreProofs.Inv, WorldOk, PendingOk, Tells, RowsOf, Summarise, AllBooked;
    FullOkAlways(k, hash, steps);
    var f := Unroll(k, hash, steps);
    assert HistoryOk(f, i);
    var events := Summarise(f.world.requests[i].trace).events;
    assert events + [] == events;
  }

  lemma {:induction false} RowsOfInOrder(rows: seq<AuditChain.Record>, run: string, a: nat, b: nat)
      returns (x: nat, y: nat)
    requires a < b < |RowsOf(rows, run)|
    ensures x < y < |rows| && rows[x] == RowsOf(rows, run)[a] && rows[y] == RowsOf(rows, run)[b]
  {
    var n := |rows| - 1;
    var before := RowsOf(rows[..n], run);
    if b < |before| {
      x, y := RowsOfInOrder(rows[..n], run, a, b);
    } else {
      y := n;
      x := RowOf(rows[..n], run, a);
    }
  }

  lemma {:induction false} RowOf(rows: seq<AuditChain.Record>, run: string, a: nat) returns (x: nat)
    requires a < |RowsOf(rows, run)|
    ensures x < |rows| && rows[x] == RowsOf(rows, run)[a]
  {
    var n := |rows| - 1;
    if a < |RowsOf(rows[..n], run)| { x := RowOf(rows[..n], run, a); } else { x := n; }
  }

  lemma StoredInOrder(hash: AuditChain.Hasher, rows: seq<AuditChain.Record>, run: string, a: nat, b: nat)
    requires AuditChain.ValidChain(hash, rows) && a < b < |RowsOf(rows, run)|
    ensures RowsOf(rows, run)[a].sequence < RowsOf(rows, run)[b].sequence
  {
    hide AuditChain.LinkedAt, RowsOf;
    var x, y := RowsOfInOrder(rows, run, a, b);
    AuditStoreProofs.SequenceAt(hash, rows, x);
    AuditStoreProofs.SequenceAt(hash, rows, y);
  }

  lemma StoreIsChain(k: Calendar, hash: AuditChain.Hasher, f: Full)
    requires FullOk(k, hash, f)
    ensures AuditChain.ValidChain(hash, f.store.events)
  {
    hide WorldOk, Linked, AllBooked, AuditChain.ValidChain;
  }

  lemma BooksAreKept(k: Calendar, hash: AuditChain.Hasher, f: Full)
    requires FullOk(k, hash, f)
    ensures BookedOnce(f.world.tables.rows, f.world.tables.charges)
  {
    hide AuditStoreProofs.Inv, Linked, AllBooked, BookedOnce, AccountOk, Matched;
  }

  /** Request `i` got the reply `status`. */
  predicate Answered(f: Full, i: nat, status: int) { i < |f.world.requests| && f.world.requests[i].pc == Done(status) }

  /** The hold of request `i`, as a row of the ledger. */
  predicate HoldRow(f: Full, i: nat, id: nat) {
    && i < |f.world.requests| && id < |f.world.tables.rows|
    && HoldOf(f.world.requests[i]) == Some((id, f.world.tables.rows[id].max))
  }

  /** Ledger row `id` belongs to the run, is settled and booked, and the two events state its amounts. */
  predicate PaidFrom(f: Full, id: nat, run: string, started: AuditEvent.Event, completed: AuditEvent.Event) {
    && id < |f.world.tables.rows|
    && var hold := f.world.tables.rows[id];
       && hold.runId == Uuid(run) && hold.state.Settled? && Charged(f.world.tables.charges, id)
       && started.reservedCost == Some(hold.max) && completed.reservedCost == Some(hold.max)
       && completed.actualCost == hold.settledActual
  }

  /**
   The hold is the estimate for the admitted body, the completion event states the usage the backend reported, and the
   amount settled is what that usage costs out of the hold at the admitted price.
   */
  predicate PricedBy(s: Summary, hold: Reservation, completed: AuditEvent.Event) {
    && s.allowed.Some? && s.answer.Some? && s.answer.value.Answered?
    && Estimated(s.allowed, hold.max)
    && completed.inputTokens == Some(s.answer.value.promptTokens)
    && completed.outputTokens == Some(s.answer.value.completionTokens)
    && hold.settledActual == Some(UsageCost(s.allowed.value.0, hold.max, s.answer.value))
  }

  /**
   A 200 reply, in every interleaving: the audit tables hold exactly two rows of the run, `run_started` before
   `run_completed` in the verified chain; the ledger holds a settled row of the same run that was booked exactly once;
   the completion row states the amount held, the reported usage and the amount booked, which is what that usage costs.
   */
  lemma OkReplyIsStored(k: Calendar, hash: AuditChain.Hasher, steps: seq<Step>, i: nat)
    requires ValidCalendar(k) && i < |Unroll(k, hash, steps).runs| && Answered(Unroll(k, hash, steps), i, 200)
    ensures var f := Unroll(k, hash, steps); var rows := RowsOf(f.store.events, f.runs[i]);
            && |rows| == 2 && rows[0].sequence < rows[1].sequence
            && rows[0].event.eventType == "run_started" && rows[1].event.eventType == "run_completed"
            && exists id: nat ::
                 && HoldRow(f, i, id) && PaidFrom(f, id, f.runs[i], rows[0].event, rows[1].event)
                 && PricedBy(Summarise(f.world.requests[i].trace), f.world.tables.rows[id], rows[1].event)
    ensures var t := Unroll(k, hash, steps).world.tables; BookedOnce(t.rows, t.charges)
  {
    hide *;
    FullOkAlways(k, hash, steps);
    BooksAreKept(k, hash, Unroll(k, hash, steps));
    OkReplyMeans(k, hash, Unroll(k, hash, steps), i);
  }

  lemma OkReplyMeans(k: Calendar, hash: AuditChain.Hasher, f: Full, i: nat)
    requires FullOk(k, hash, f) && i < |f.runs| && Answered(f, i, 200)
    ensures var rows := RowsOf(f.store.events, f.runs[i]);
            && |rows| == 2 && rows[0].sequence < rows[1].sequence
            && rows[0].event.eventType == "run_started" && rows[1].event.eventType == "run_completed"
            && exists id: nat ::
                 && HoldRow(f, i, id) && PaidFrom(f, id, f.runs[i], rows[0].event, rows[1].event)
                 && PricedBy(Summarise(f.world.requests[i].trace), f.world.tables.rows[id], rows[1].event)
  {
    hide FullOk, RowsOf, Summarise, Orderly, BookedOnce, Charged, Estimated, UsageCost;
    RequestOfRun(k, hash, f, i);
    var r := f.world.requests[i];
    var s, rows := Summarise(r.trace), RowsOf(f.store.events, f.runs[i]);
    ReplyMeans(r.trace, 200);
    HoldIsEstimate(r.trace);
    assert Unread(f, i) == [] && s.events + [] == s.events;
    assert Describes(rows[0].event, f.runs[i], RunStarted, s) && Describes(rows[1].event, f.runs[i], RunCompleted, s);
    StoreIsChain(k, hash, f);
    StoredInOrder(hash, f.store.events, f.runs[i], 0, 1);
    HoldIsRow(k, hash, f, i);
    var id := s.hold.value.0;
    BooksAreKept(k, hash, f);
    SettledIsCharged(f.world.tables.rows, f.world.tables.charges, id);
    assert HoldRow(f, i, id) && PaidFrom(f, id, f.runs[i], rows[0].event, rows[1].event);
    assert PricedBy(s, f.world.tables.rows[id], rows[1].event);
  }

  lemma SettledIsCharged(rows: seq<Reservation>, charges: seq<Charge>, id: nat)
    requires BookedOnce(rows, charges) && id < |rows| && rows[id].state.Settled?
    ensures Charged(charges, id)
  {
  }

  lemma HoldIsRow(k: Calendar, hash: AuditChain.Hasher, f: Full, i: nat)
    requires FullOk(k, hash, f) && i < |f.world.requests| && HoldOf(f.world.requests[i]).Some?
    ensures var hold := HoldOf(f.world.requests[i]).value;
            hold.0 < |f.world.tables.rows| && f.world.tables.rows[hold.0].max == hold.1
  {
    hide AuditStoreProofs.Inv, Linked, AllBooked, Inv, RequestOk, HoldOf;
    var id := HoldOf(f.world.requests[i]).value.0;
    assert f.world.owner[id] == i;
  }

  /** A 402 or 403 reply: the run has exactly one stored row, a denial that states no cost. */
  lemma DenialIsStored(k: Calendar, hash: AuditChain.Hasher, steps: seq<Step>, i: nat, status: int)
    requires ValidCalendar(k) && i < |Unroll(k, hash, steps).runs|
    requires status in {402, 403} && Answered(Unroll(k, hash, steps), i, status)
    ensures var f := Unroll(k, hash, steps); var rows := RowsOf(f.store.events, f.runs[i]);
            |rows| == 1 && rows[0].event.eventType == "run_denied" && rows[0].event.reservedCost.None?
  {
    hide Unroll, FullOk, RowsOf, Summarise, Orderly, Booked;
    FullOkAlways(k, hash, steps);
    var f := Unroll(k, hash, steps);
    RequestOfRun(k, hash, f, i);
    var s := Summarise(f.world.requests[i].trace);
    ReplyMeans(f.world.requests[i].trace, status);
    assert Unread(f, i) == [] && s.events + [] == s.events;
    assert Describes(RowsOf(f.store.events, f.runs[i])[0].event, f.runs[i], RunDenied, s);
  }

  /** Whenever the backend has been called for a request, the first stored row of its run is its start event. */
  lemma BackendCallIsStored(k: Calendar, hash: AuditChain.Hasher, steps: seq<Step>, i: nat)
    requires ValidCalendar(k) && i < |Unroll(k, hash, steps).runs| && i < |Unroll(k, hash, steps).world.requests|
    requires Summarise(Unroll(k, hash, steps).world.requests[i].trace).backendCalls > 0
    ensures var f := Unroll(k, hash, steps); var rows := RowsOf(f.store.events, f.runs[i]);
            rows != [] && rows[0].event.eventType == "run_started" && rows[0].event.runId == f.runs[i]
  {
    hide Unroll, FullOk, RowsOf, Summarise, Orderly, Booked;
    FullOkAlways(k, hash, steps);
    var f := Unroll(k, hash, steps);
    RequestOfRun(k, hash, f, i);
    var s := Summarise(f.world.requests[i].trace);
    BackendNeedsStart(f.world.requests[i].trace);
    assert Describes(RowsOf(f.store.events, f.runs[i])[0].event, f.runs[i], (s.events + Unread(f, i))[0], s);
  }

  /** The receipt of a committed start event always authorises the backend call. */
  lemma StartAlwaysAuthorises(k: Calendar, hash: AuditChain.Hasher, steps: seq<Step>, i: nat)
    requires ValidCalendar(k) && i < |Unroll(k, hash, steps).runs| && CanReturn(Unroll(k, hash, steps), i)
    requires i < |Unroll(k, hash, steps).world.requests| && Unroll(k, hash, steps).world.requests[i].pc.Starting?
    ensures var f := Unroll(k, hash, steps); var tx := f.store.txs[f.pending[i].value];
            tx.Committed? ==> tx.receipt.backendAuthorized
  {
    hide Unroll, Summarise, RequestOk, HistoryOk, Booked, AuditStoreProofs.Inv, WorldOk;
    FullOkAlways(k, hash, steps);
    var f := Unroll(k, hash, steps);
    assert PendingOk(f, i);
    var t := f.pending[i].value;
    if f.store.txs[t].Committed? { AuditStoreProofs.CommittedReceipt(hash, f.store, t); }
  }
}
