/** `handleChatCompletions` from top to bottom, against a ledger that it updates in place. */
module ChatHandler {
  import opened Common
  import opened Ledger
  import opened Price
  import opened LedgerInvariants
  import opened LedgerStore
  import opened Chat
  import opened ChatWorld

  /** How the collaborators of one request behave. */
  datatype Outcomes = Outcomes(
    verdict: Verdict, denialCommits: bool, reserveReached: bool, reservedAt: int, startCommits: bool,
    startAuthorises: bool,
    backend: BackendResult, settleReached: bool, settledAt: int, completionCommits: bool, failureCommits: bool)

  predicate ValidVerdict(v: Verdict) {
    (v.Reject? ==> EarlyStatus(v.status)) && (v.Allow? ==> v.bodyBytes >= 0)
  }

  method Admission(v: Verdict) returns (r: Request)
    requires ValidVerdict(v)
    ensures RequestOk(r) && HoldOf(r).None?
    ensures match v
            case Reject(status) => r.pc == Done(status)
            case Deny => r.pc == Denying(403)
            case Allow(principal, runId, model, price, bodyBytes, ttl) =>
              var estimate := EstimateMaxCostMicros(price, bodyBytes / 4 + 1);
              r.pc == if estimate.Err? then Done(503)
                  else Holding(Order(principal, runId, model, price, estimate.value, ttl))
  {
    hide EstimateMaxCostMicros;
    var received := Request(Received, []);
    AdmittedKeepsOrder(received, v);
    r := Advance(received, Admit(v));
  }

  method TakeHold(store: BudgetStore, r: Request, reached: bool, now: int) returns (r': Request)
    requires r.pc.Holding?
    modifies store
    ensures (store.Snapshot(), r') == Reserving(store.calendar, old(store.Snapshot()), r, reached, now)
  {
    var o := r.pc.order;
    if !reached { return Note(r, Done(503), [HoldRefused, Replied(503)]); }
    var res := store.ReserveBudget(o.principal, o.runId, o.model, o.max, o.ttlSeconds, now);
    match res
    case Ok(id) => r' := Note(r, Starting(id, o.max, o.price), [HoldTaken(id, o.max)]);
    case Err(error) =>
      if error == BudgetDenied {
        r' := Note(r, Denying(402), [HoldRefused]);
      } else {
        r' := Note(r, Done(503), [HoldRefused, Replied(503)]);
      }
  }

  method SettleHold(store: BudgetStore, r: Request, reached: bool, now: int) returns (r': Request)
    requires r.pc.Settling?
    modifies store
    ensures (store.Snapshot(), r') == SettlingNow(store.calendar, old(store.Snapshot()), r, reached, now)
  {
    var id := r.pc.id;
    var res: Result<int, Error> := Err(Error.Unavailable);
    if reached { res := store.SettleBudget(id, Some(r.pc.actual), now); }
    var effect := if res.Ok? then HoldSettled(id, res.value) else SettleLost(id);
    match r.pc.next
    case ThenReply(status) => r' := Note(r, Done(status), [effect, Replied(status)]);
    case ThenFail(status) => r' := Note(r, Failing(status), [effect]);
    case ThenComplete =>
      if res.Ok? {
        r' := Note(r, Completing(id, r.pc.max, res.value), [effect]);
      } else {
        r' := Note(r, Failing(503), [effect]);
      }
  }

  /** What follows settlement. */
  function NextOf(o: Outcomes): Next {
    if !o.startCommits || !o.startAuthorises then ThenReply(503)
    else
      match o.backend
      case BackendFailed => ThenFail(502)
      case ResponseTooLarge => ThenFail(502)
      case DigestUnavailable => ThenFail(503)
      case Answered(_, _) => ThenComplete
  }

  /** Start audit and backend call: what is to be settled, and what follows. */
  method StartAndCall(r: Request, o: Outcomes) returns (r': Request)
    requires RequestOk(r) && r.pc.Starting?
    ensures RequestOk(r') && r'.pc.Settling? && r'.pc.id == r.pc.id && r'.pc.max == r.pc.max && r'.pc.next == NextOf(o)
  {
    hide RequestOk, Summarise, SettlementCost;
    StartKeepsOrder(r, o.startCommits, o.startAuthorises);
    r' := Advance(r, AppendEnds(o.startCommits, o.startAuthorises));
    if r'.pc.Calling? {
      AdvanceKeepsOrder(r', BackendEnds(o.backend));
      r' := Advance(r', BackendEnds(o.backend));
    }
  }

  method Deny(r: Request, commits: bool) returns (r': Request)
    requires RequestOk(r) && r.pc.Denying?
    ensures RequestOk(r') && r'.pc == Done(if commits then r.pc.status else 503) && SameHold(r, r')
  {
    hide RequestOk, Summarise;
    DenialKeepsOrder(r, commits);
    r' := Advance(r, AppendEnds(commits, false));
  }

  method Complete(r: Request, commits: bool) returns (r': Request)
    requires RequestOk(r) && r.pc.Completing?
    ensures RequestOk(r') && r'.pc == (if commits then Done(200) else Failing(503)) && SameHold(r, r')
  {
    hide RequestOk, Summarise;
    CompletionKeepsOrder(r, commits);
    r' := Advance(r, AppendEnds(commits, false));
  }

  method Fail(r: Request, commits: bool) returns (r': Request)
    requires RequestOk(r) && r.pc.Failing?
    ensures RequestOk(r') && r'.pc == Done(r.pc.status) && SameHold(r, r')
  {
    hide RequestOk, Summarise;
    FailureKeepsOrder(r, commits);
    r' := Advance(r, AppendEnds(commits, false));
  }

  /** Completion or failure audit, and the reply. */
  method Finish(r: Request, o: Outcomes) returns (r': Request)
    requires RequestOk(r) && (r.pc.Done? || r.pc.Failing? || r.pc.Completing?)
    ensures RequestOk(r') && SameHold(r, r')
    ensures r'.pc == Done(if !r.pc.Completing? then r.pc.status else if o.completionCommits then 200 else 503)
  {
    hide RequestOk, Summarise;
    r' := r;
    if r'.pc.Completing? { r' := Complete(r', o.completionCommits); }
    if r'.pc.Failing? { r' := Fail(r', o.failureCommits); }
  }

  /** The reply of an undisturbed request, as a table over the collaborators' outcomes. */
  function ExpectedStatus(k: Calendar, t: Tables, o: Outcomes): int {
    match o.verdict
    case Reject(status) => status
    case Deny => if o.denialCommits then 403 else 503
    case Allow(principal, runId, model, price, bodyBytes, ttl) =>
      var estimate := EstimateMaxCostMicros(price, if bodyBytes >= 0 then bodyBytes / 4 + 1 else 0);
      if estimate.Err? || !o.reserveReached then 503
      else
        var held := Reserve(k, t, principal, runId, model, estimate.value, ttl, o.reservedAt).1;
        if held == Err(BudgetDenied) then (if o.denialCommits then 402 else 503)
        else if held.Err? || !o.startCommits || !o.startAuthorises then 503
        else
          match o.backend
          case BackendFailed => 502
          case ResponseTooLarge => 502
          case DigestUnavailable => 503
          case Answered(_, _) => if o.settleReached && o.completionCommits then 200 else 503
  }

  /**
   Whatever the collaborators do, the handler replies, its trace is orderly, and unless its settle call failed the
   ledger holds exactly as much for every principal as before.
   */
  method HandleChatCompletions(store: BudgetStore, o: Outcomes) returns (r: Request)
    requires ValidCalendar(store.calendar) && Inv(store.calendar, store.Snapshot())
    requires ValidVerdict(o.verdict)
    modifies store
    ensures r.pc.Done? && RequestOk(r)
    ensures r.pc.status == ExpectedStatus(store.calendar, old(store.Snapshot()), o)
    ensures Inv(store.calendar, store.Snapshot())
    ensures SettleFailed(r) || forall p :: OpenTotal(store.rows, p) == OpenTotal(old(store.rows), p)
  {
    hide Inv, Reserving, SettlingNow, Sum, RequestOk, Summarise, ValidCalendar, EstimateMaxCostMicros, Reserve;
    ghost var rows := store.rows;
    r := Admission(o.verdict);
    if r.pc.Holding? {
      TakeHoldFacts(store.calendar, store.Snapshot(), r, o.reserveReached, o.reservedAt);
      HoldOutcome(store.calendar, store.Snapshot(), r, o.reserveReached, o.reservedAt);
      r := TakeHold(store, r, o.reserveReached, o.reservedAt);
    }
    if r.pc.Denying? {
      r := Deny(r, o.denialCommits);
    }
    if r.pc.Done? { return; }
    var id := r.pc.id;
    r := StartAndCall(r, o);
    SettleHoldFacts(store.calendar, store.Snapshot(), r, o.settleReached, o.settledAt);
    SettleOutcome(store.calendar, store.Snapshot(), r, o.settleReached, o.settledAt);
    r := SettleHold(store, r, o.settleReached, o.settledAt);
    r := Finish(r, o);
    assert store.rows[..id] == rows;
    if !SettleFailed(r) { ClosedRowHoldsNothing(rows, store.rows); }
  }

  lemma HoldOutcome(k: Calendar, t: Tables, r: Request, reached: bool, now: int)
    requires r.pc.Holding?
    ensures var o := r.pc.order; var held := Reserve(k, t, o.principal, o.runId, o.model, o.max, o.ttlSeconds, now).1;
            var pc := Reserving(k, t, r, reached, now).1.pc;
            if !reached || (held.Err? && held != Err(BudgetDenied)) then pc == Done(503)
            else if held.Err? then pc == Denying(402)
            else pc.Starting?
  {
    hide Reserve;
  }

  /** With the hold still open, settling succeeds whenever the ledger is reached. */
  lemma SettleOutcome(k: Calendar, t: Tables, r: Request, reached: bool, now: int)
    requires ValidCalendar(k) && Inv(k, t) && RequestOk(r) && r.pc.Settling?
    requires r.pc.id < |t.rows| && t.rows[r.pc.id].state.Reserved?
    ensures var pc := SettlingNow(k, t, r, reached, now).1.pc;
            match r.pc.next
            case ThenReply(status) => pc == Done(status)
            case ThenFail(status) => pc == Failing(status)
            case ThenComplete => if reached then pc.Completing? else pc == Failing(503)
  {
    hide Settle, Inv, Orderly, Summarise;
    SettleOpen(k, t, r.pc.id, Some(r.pc.actual), now);
  }

  lemma ClosedRowHoldsNothing(rows: seq<Reservation>, rows': seq<Reservation>)
    requires |rows'| == |rows| + 1 && rows'[..|rows|] == rows && !rows'[|rows|].state.Reserved?
    ensures forall p :: OpenTotal(rows', p) == OpenTotal(rows, p)
  {
    assert rows' == rows + [rows'[|rows|]];
    forall p ensures OpenTotal(rows', p) == OpenTotal(rows, p) { SumAppend(OpenWeight(p), rows, rows'[|rows|]); }
  }
}
