/**
 The life of a chat request: admission, budget hold, start audit, backend call, settlement, completion audit, reply.
 Any collaborator may fail at any point, and the steps of any number of requests interleave with one another and with
 expiry, limit changes and principal changes on the ledger.
 */
module Chat {
  import opened Common
  import opened Ledger
  import opened Price

  datatype AuditKind = RunStarted | RunCompleted | RunFailed | RunDenied

  /** What a request does that others can observe, in order. `Lost` effects are calls that reported failure. */
  datatype Effect =
    | PolicyAllowed(price: ModelPrice, bodyBytes: int)
    | HoldTaken(id: nat, max: int)
    | HoldRefused
    | Audited(kind: AuditKind)
    | AuditLost(kind: AuditKind)
    | BackendCalled(result: BackendResult)
    | HoldSettled(id: nat, amount: int)
    | SettleLost(id: nat)
    | Replied(status: int)

  // ---------- what an outside observer demands of a trace ----------

  /** What was admitted at what price, what was held, recorded, answered, settled and replied. */
  datatype Summary = Summary(
    allowed: Option<(ModelPrice, int)>, hold: Option<(nat, int)>, events: seq<AuditKind>, backendCalls: nat,
    answer: Option<BackendResult>,
    settles: nat, settled: Option<int>, reply: Option<int>)

  const NOTHING := Summary(None, None, [], 0, None, 0, None, None)

  /**
   What a backend result costs out of a hold of `max`: nothing for a failure; the exact price of the reported usage
   where there is one within the hold, with a missing prompt count taken as one token; otherwise the whole hold.
   */
  function UsageCost(price: ModelPrice, max: int, result: BackendResult): int {
    match result
    case Answered(promptTokens, completionTokens) =>
      var cost := UsagePrice(price, if promptTokens <= 0 then 1 else promptTokens, completionTokens);
      if cost.Some? && cost.value <= max then cost.value else max
    case _ => 0
  }

  /** What the hold must be settled at: nothing until the backend has answered. */
  function Owed(s: Summary): int {
    if s.allowed.Some? && s.hold.Some? && s.answer.Some?
    then UsageCost(s.allowed.value.0, s.hold.value.1, s.answer.value) else 0
  }

  /**
   `max` is the exact price of one token per four bytes of the body, and one more, with the model's maximum output.
   */
  predicate Estimated(allowed: Option<(ModelPrice, int)>, max: int) {
    && allowed.Some?
    && var (price, bodyBytes) := allowed.value;
       price.maxOutputTokens > 0 && max > 0 && UsagePrice(price, bodyBytes / 4 + 1, price.maxOutputTokens) == Some(max)
  }

  function Observe(s: Summary, e: Effect): Summary {
    match e
    case PolicyAllowed(price, bodyBytes) => s.(allowed := Some((price, bodyBytes)))
    case HoldTaken(id, max) => s.(hold := Some((id, max)))
    case HoldRefused => s
    case Audited(kind) => s.(events := s.events + [kind])
    case AuditLost(_) => s
    case BackendCalled(result) => s.(backendCalls := s.backendCalls + 1, answer := Some(result))
    case HoldSettled(_, amount) => s.(settles := s.settles + 1, settled := Some(amount))
    case SettleLost(_) => s.(settles := s.settles + 1)
    case Replied(status) => s.(reply := Some(status))
  }

  function Summarise(trace: seq<Effect>): Summary {
    if trace == [] then NOTHING else Observe(Summarise(trace[..|trace| - 1]), trace[|trace| - 1])
  }

  /** The event histories a run may leave behind. */
  predicate LegalEvents(events: seq<AuditKind>) {
    || events == [] || events == [RunDenied] || events == [RunStarted]
    || events == [RunStarted, RunFailed] || events == [RunStarted, RunCompleted]
  }

  /** Whether effect `e` may follow a past summarised by `s`. */
  predicate MayFollow(s: Summary, e: Effect) {
    && s.reply.None?
    && match e
       case PolicyAllowed(_, bodyBytes) => s == NOTHING && bodyBytes >= 0
       case HoldTaken(_, max) => s == NOTHING.(allowed := s.allowed) && Estimated(s.allowed, max)
       case HoldRefused => s == NOTHING.(allowed := s.allowed) && s.allowed.Some?
       case Audited(RunDenied) => s.events == [] && s.hold.None? && s.backendCalls == 0
       case Audited(RunStarted) => s.events == [] && s.hold.Some? && s.settles == 0
       case Audited(RunFailed) => s.events == [RunStarted] && s.settles == 1
       case Audited(RunCompleted) => s.events == [RunStarted] && s.backendCalls == 1 && s.settled.Some?
       case AuditLost(_) => true
       case BackendCalled(_) => s.allowed.Some? && s.hold.Some? && s.events == [RunStarted] && s.backendCalls == 0
         && s.settles == 0
       case HoldSettled(id, amount) => s.hold.Some? && s.settles == 0 && id == s.hold.value.0 && amount == Owed(s)
         && 0 <= amount <= s.hold.value.1
       case SettleLost(id) => s.hold.Some? && s.settles == 0 && id == s.hold.value.0
       case Replied(status) =>
         && (status == 200 ==>
               s.events == [RunStarted, RunCompleted] && s.backendCalls == 1
               && s.hold.Some? && s.settles == 1 && s.settled == Some(Owed(s))
               && 0 <= Owed(s) <= s.hold.value.1 && s.answer.Some? && s.answer.value.Answered? && s.allowed.Some?)
         && (status == 402 || status == 403 ==> s.events == [RunDenied])
         && s.settles == (if s.hold.Some? then 1 else 0)
         && LegalEvents(s.events)
  }

  /** Every effect of the trace was permitted by what had happened before it. */
  predicate Orderly(trace: seq<Effect>) {
    forall i :: 0 <= i < |trace| ==> MayFollow(Summarise(trace[..i]), trace[i])
  }

  lemma OneMore(trace: seq<Effect>, e: Effect)
    ensures Summarise(trace + [e]) == Observe(Summarise(trace), e)
    ensures Orderly(trace) && MayFollow(Summarise(trace), e) ==> Orderly(trace + [e])
  {
    assert (trace + [e])[..|trace|] == trace;
    assert forall i :: 0 <= i < |trace| ==> (trace + [e])[..i] == trace[..i];
  }

  // ---------- the handler, cut at its collaborator calls ----------

  datatype Order = Order(principal: Uuid, runId: Uuid, model: string, price: ModelPrice, max: int, ttlSeconds: int)

  datatype Next = ThenReply(status: int) | ThenFail(status: int) | ThenComplete

  datatype Pc =
    | Received
    | Denying(status: int)
    | Holding(order: Order)
    | Starting(id: nat, max: int, price: ModelPrice)
    | Calling(id: nat, max: int, price: ModelPrice)
    | Settling(id: nat, max: int, actual: int, next: Next)
    | Completing(id: nat, max: int, amount: int)
    | Failing(status: int)
    | Done(status: int)

  datatype Request = Request(pc: Pc, trace: seq<Effect>)

  /** What admission decides: rejection before any policy decision, denial, or an allowed model with its price. */
  datatype Verdict =
    | Reject(status: int)
    | Deny
    | Allow(principal: Uuid, runId: Uuid, model: string, price: ModelPrice, bodyBytes: Int64, ttlSeconds: int)

  datatype BackendResult =
    | BackendFailed
    | ResponseTooLarge
    | DigestUnavailable
    | Answered(promptTokens: Int64, completionTokens: Int64)

  /** How the collaborator that the request calls next behaves. A ledger call that is not `reached` changes nothing. */
  datatype Event =
    | Admit(verdict: Verdict)
    | AppendEnds(committed: bool, authorises: bool)
    | LedgerEnds(reached: bool, now: int)
    | BackendEnds(result: BackendResult)

  function Note(r: Request, pc: Pc, effects: seq<Effect>): Request { Request(pc, r.trace + effects) }

  /** The cost to settle: observed usage priced, or the whole hold when it cannot be priced or exceeds the hold. */
  function SettlementCost(price: ModelPrice, max: int, promptTokens: Int64, completionTokens: Int64): int {
    var prompt: Int64 := if promptTokens <= 0 then 1 else promptTokens;
    var cost := ActualCostMicros(price, prompt, completionTokens);
    if cost.Err? || cost.value > max then max else cost.value
  }

  predicate EarlyStatus(status: int) { status in {400, 401, 405, 413, 503} }

  function Admitted(r: Request, v: Verdict): Request {
    match v
    case Reject(status) => if EarlyStatus(status) then Note(r, Done(status), [Replied(status)]) else r
    case Deny => Note(r, Denying(403), [])
    case Allow(principal, runId, model, price, bodyBytes, ttl) =>
      if bodyBytes < 0 then r
      else Priced(r, EstimateMaxCostMicros(price, bodyBytes / 4 + 1), principal, runId, model, price, bodyBytes, ttl)
  }

  function Priced(r: Request, estimate: Result<Int64, PriceError>, principal: Uuid, runId: Uuid, model: string,
                  price: ModelPrice, bodyBytes: int, ttl: int): Request {
    match estimate
    case Err(_) => Note(r, Done(503), [PolicyAllowed(price, bodyBytes), Replied(503)])
    case Ok(max) => Note(r, Holding(Order(principal, runId, model, price, max, ttl)), [PolicyAllowed(price, bodyBytes)])
  }

  /** A step that needs no ledger call. */
  function Advance(r: Request, e: Event): Request {
    match (r.pc, e)
    case (Received, Admit(v)) => Admitted(r, v)
    case (Denying(status), AppendEnds(committed, _)) =>
      if committed then Note(r, Done(status), [Audited(RunDenied), Replied(status)])
      else Note(r, Done(503), [AuditLost(RunDenied), Replied(503)])
    case (Starting(id, max, price), AppendEnds(committed, authorises)) =>
      if !committed then Note(r, Settling(id, max, 0, ThenReply(503)), [AuditLost(RunStarted)])
      else if !authorises then Note(r, Settling(id, max, 0, ThenReply(503)), [Audited(RunStarted)])
      else Note(r, Calling(id, max, price), [Audited(RunStarted)])
    case (Calling(id, max, price), BackendEnds(result)) =>
      (match result
       case BackendFailed => Note(r, Settling(id, max, 0, ThenFail(502)), [BackendCalled(result)])
       case ResponseTooLarge => Note(r, Settling(id, max, 0, ThenFail(502)), [BackendCalled(result)])
       case DigestUnavailable => Note(r, Settling(id, max, 0, ThenFail(503)), [BackendCalled(result)])
       case Answered(p, c) => Note(r, Settling(id, max, SettlementCost(price, max, p, c), ThenComplete),
                                   [BackendCalled(result)]))
    case (Completing(_, _, _), AppendEnds(committed, _)) =>
      if committed then Note(r, Done(200), [Audited(RunCompleted), Replied(200)])
      else Note(r, Failing(503), [AuditLost(RunCompleted)])
    case (Failing(status), AppendEnds(committed, _)) =>
      Note(r, Done(status), [if committed then Audited(RunFailed) else AuditLost(RunFailed), Replied(status)])
    case _ => r
  }

  function Reserving(k: Calendar, t: Tables, r: Request, reached: bool, now: int): (Tables, Request)
    requires r.pc.Holding?
  {
    var o := r.pc.order;
    var (t', res) := if reached then Reserve(k, t, o.principal, o.runId, o.model, o.max, o.ttlSeconds, now)
                     else (t, Err(Error.Unavailable));
    match res
    case Ok(id) => (t', Note(r, Starting(id, o.max, o.price), [HoldTaken(id, o.max)]))
    case Err(error) =>
      (t, if error == BudgetDenied then Note(r, Denying(402), [HoldRefused])
       else Note(r, Done(503), [HoldRefused, Replied(503)]))
  }

  function SettlingNow(k: Calendar, t: Tables, r: Request, reached: bool, now: int): (Tables, Request)
    requires r.pc.Settling?
  {
    var pc := r.pc;
    var (t', res) := if reached then Settle(k, t, pc.id, Some(pc.actual), now) else (t, Err(Error.Unavailable));
    var effect := if res.Ok? then HoldSettled(pc.id, res.value) else SettleLost(pc.id);
    match pc.next
    case ThenReply(status) => (t', Note(r, Done(status), [effect, Replied(status)]))
    case ThenFail(status) => (t', Note(r, Failing(status), [effect]))
    case ThenComplete =>
      (t', if res.Ok? then Note(r, Completing(pc.id, pc.max, res.value), [effect]) else Note(r, Failing(503), [effect]))
  }

  /** One step of a request; an event that does not answer the call the request is waiting for changes nothing. */
  function StepRequest(k: Calendar, t: Tables, r: Request, e: Event): (Tables, Request) {
    if e.LedgerEnds? && r.pc.Holding? then Reserving(k, t, r, e.reached, e.now)
    else if e.LedgerEnds? && r.pc.Settling? then SettlingNow(k, t, r, e.reached, e.now)
    else (t, Advance(r, e))
  }

  // ---------- where a request stands ----------

  /** The hold and the price at which the request was admitted. */
  predicate Holds(s: Summary, id: nat, max: int) {
    s.hold == Some((id, max)) && max > 0 && s.allowed.Some? && Estimated(s.allowed, max)
  }

  predicate Stands(pc: Pc, s: Summary) {
    match pc
    case Received => s == NOTHING
    case Denying(status) => s == NOTHING.(allowed := s.allowed) && (status == 402 || status == 403)
    case Holding(o) => s == NOTHING.(allowed := s.allowed) && Estimated(s.allowed, o.max)
      && s.allowed.value.0 == o.price
    case Starting(id, max, price) =>
      Holds(s, id, max) && s == Summary(s.allowed, s.hold, [], 0, None, 0, None, None) && s.allowed.value.0 == price
    case Calling(id, max, price) =>
      Holds(s, id, max) && s == Summary(s.allowed, s.hold, [RunStarted], 0, None, 0, None, None)
          && s.allowed.value.0 == price
    case Settling(id, max, actual, ThenReply(status)) =>
      && Holds(s, id, max) && s == Summary(s.allowed, s.hold, s.events, 0, None, 0, None, None)
      && (s.events == [] || s.events == [RunStarted]) && actual == 0 && status == 503
    case Settling(id, max, actual, next) =>
      && Holds(s, id, max) && s == Summary(s.allowed, s.hold, [RunStarted], 1, s.answer, 0, None, None)
      && s.answer.Some? && actual == Owed(s) && 0 <= actual <= max
      && (next.ThenFail? ==> next.status in {502, 503}) && (next.ThenComplete? ==> s.answer.value.Answered?)
    case Completing(id, max, amount) =>
      && Holds(s, id, max) && s == Summary(s.allowed, s.hold, [RunStarted], 1, s.answer, 1, Some(amount), None)
      && s.answer.Some? && s.answer.value.Answered? && amount == Owed(s) && 0 <= amount <= max
    case Failing(status) =>
      s == Summary(s.allowed, s.hold, [RunStarted], 1, s.answer, 1, s.settled, None) && s.hold.Some?
          && status in {502, 503}
    case Done(status) => s.reply == Some(status) && s.settles == (if s.hold.Some? then 1 else 0)
  }

  predicate RequestOk(r: Request) { Orderly(r.trace) && Stands(r.pc, Summarise(r.trace)) }

  lemma NoteOne(r: Request, pc: Pc, e: Effect)
    requires Orderly(r.trace) && MayFollow(Summarise(r.trace), e) && Stands(pc, Observe(Summarise(r.trace), e))
    ensures RequestOk(Note(r, pc, [e])) && Summarise(Note(r, pc, [e]).trace) == Observe(Summarise(r.trace), e)
  {
    OneMore(r.trace, e);
  }

  lemma NoteTwo(r: Request, pc: Pc, d: Effect, e: Effect)
    requires Orderly(r.trace) && MayFollow(Summarise(r.trace), d)
    requires MayFollow(Observe(Summarise(r.trace), d), e) && Stands(pc, Observe(Observe(Summarise(r.trace), d), e))
    ensures RequestOk(Note(r, pc, [d, e]))
            && Summarise(Note(r, pc, [d, e]).trace) == Observe(Observe(Summarise(r.trace), d), e)
  {
    OneMore(r.trace, d);
    OneMore(r.trace + [d], e);
    assert r.trace + [d, e] == r.trace + [d] + [e];
  }

  /** Steps without a ledger call leave the request's hold and its settlement attempts as they were. */
  predicate SameHold(r: Request, r': Request) {
    && Summarise(r'.trace).hold == Summarise(r.trace).hold
    && Summarise(r'.trace).settles == Summarise(r.trace).settles
    && Summarise(r'.trace).settled == Summarise(r.trace).settled
  }

  /** For every reported usage, what the handler settles is what the usage costs out of the hold. */
  lemma SettlementIsUsageCost(price: ModelPrice, max: int, promptTokens: Int64, completionTokens: Int64)
    ensures SettlementCost(price, max, promptTokens, completionTokens) ==
            UsageCost(price, max, Answered(promptTokens, completionTokens))
  {
    hide ActualCostMicros, UsagePrice;
    ActualCostIsExact(price, if promptTokens <= 0 then 1 else promptTokens, completionTokens);
  }

  /**
   In terms of the two legs alone: usage is charged its input at the input rate and its output at the output rate, each
   rounded up, exactly when that fits the hold and int64; otherwise the whole hold is charged.
   */
  lemma UsageCostIsCover(price: ModelPrice, max: int, promptTokens: Int64, completionTokens: Int64, a: int, b: int)
    requires price.inputRate > 0 && price.outputRate > 0 && completionTokens >= 0
    requires var n := if promptTokens <= 0 then 1 else promptTokens;
             (a - 1) * 1_000_000 < n * price.inputRate <= a * 1_000_000
    requires if completionTokens > 0 then (b - 1) * 1_000_000 < completionTokens * price.outputRate <= b * 1_000_000
             else b == 0
    ensures var n := if promptTokens <= 0 then 1 else promptTokens;
            var fits := n * price.inputRate + 999_999 <= 0x7FFF_FFFF_FFFF_FFFF
                        && completionTokens * price.outputRate + 999_999 <= 0x7FFF_FFFF_FFFF_FFFF
                        && a + b <= 0x7FFF_FFFF_FFFF_FFFF;
            UsageCost(price, max, Answered(promptTokens, completionTokens)) ==
            if fits && a + b <= max then a + b else max
  {
    hide UsagePrice;
    UsagePriceIsCover(price, if promptTokens <= 0 then 1 else promptTokens, completionTokens, a, b);
  }

  lemma FailureIsFree(price: ModelPrice, max: int, result: BackendResult)
    requires !result.Answered?
    ensures UsageCost(price, max, result) == 0
  {
  }

  lemma UsageCostWithinHold(price: ModelPrice, max: int, result: BackendResult)
    requires max > 0
    ensures 0 <= UsageCost(price, max, result) <= max
  {
  }

  /**
   When the hold is the estimate for the request and the reported usage stays within what the estimate assumed,
   settlement charges exactly the price of that usage.
   */
  lemma SettlementIsActualCost(price: ModelPrice, inputTokens: Int64, promptTokens: Int64, completionTokens: Int64)
    requires EstimateMaxCostMicros(price, inputTokens).Ok?
    requires 0 < promptTokens <= inputTokens && 0 <= completionTokens <= price.maxOutputTokens
    ensures Ok(SettlementCost(price, EstimateMaxCostMicros(price, inputTokens).value, promptTokens, completionTokens))
            == ActualCostMicros(price, promptTokens, completionTokens)
  {
    hide EstimateMaxCostMicros, ActualCostMicros;
    ActualWithinEstimate(price, inputTokens, promptTokens, completionTokens);
  }

  lemma NoteNone(r: Request, pc: Pc)
    requires Orderly(r.trace) && Stands(pc, Summarise(r.trace))
    ensures RequestOk(Note(r, pc, [])) && Note(r, pc, []).trace == r.trace
  {
    assert r.trace + [] == r.trace;
  }

  lemma EstimateIsEstimated(price: ModelPrice, bodyBytes: Int64)
    requires bodyBytes >= 0
    ensures var c := EstimateMaxCostMicros(price, bodyBytes / 4 + 1);
            c.Ok? ==> Estimated(Some((price, bodyBytes)), c.value)
  {
    hide MicrosFor, Roundable, MulDivCeil;
    EstimateIsExact(price, bodyBytes / 4 + 1);
  }

  lemma PricedKeepsOrder(r: Request, estimate: Result<Int64, PriceError>, principal: Uuid, runId: Uuid, model: string,
                         price: ModelPrice, bodyBytes: int, ttl: int)
    requires RequestOk(r) && r.pc.Received? && bodyBytes >= 0
    requires estimate.Ok? ==> Estimated(Some((price, bodyBytes)), estimate.value)
    ensures var r' := Priced(r, estimate, principal, runId, model, price, bodyBytes, ttl);
            RequestOk(r') && SameHold(r, r')
  {
    hide Estimated, UsageCost, Summarise, Orderly;
    var r' := Priced(r, estimate, principal, runId, model, price, bodyBytes, ttl);
    var allowed := PolicyAllowed(price, bodyBytes);
    if estimate.Err? { NoteTwo(r, r'.pc, allowed, Replied(503)); } else { NoteOne(r, r'.pc, allowed); }
  }

  lemma AdmittedKeepsOrder(r: Request, v: Verdict)
    requires RequestOk(r) && r.pc.Received?
    ensures RequestOk(Admitted(r, v)) && SameHold(r, Admitted(r, v))
  {
    hide EstimateMaxCostMicros, Priced;
    match v
    case Reject(status) => if EarlyStatus(status) { NoteOne(r, Done(status), Replied(status)); }
    case Deny => NoteNone(r, Denying(403));
    case Allow(principal, runId, model, price, bodyBytes, ttl) =>
      if bodyBytes >= 0 {
        var estimate := EstimateMaxCostMicros(price, bodyBytes / 4 + 1);
        EstimateIsEstimated(price, bodyBytes);
        PricedKeepsOrder(r, estimate, principal, runId, model, price, bodyBytes, ttl);
      }
  }

  lemma DenialKeepsOrder(r: Request, committed: bool)
    requires RequestOk(r) && r.pc.Denying?
    ensures var r' := Advance(r, AppendEnds(committed, false)); RequestOk(r') && SameHold(r, r')
  {
    hide Summarise, Orderly, UsageCost, Estimated;
    assert [] + [RunDenied] == [RunDenied];
    if committed { NoteTwo(r, Done(r.pc.status), Audited(RunDenied), Replied(r.pc.status)); }
    else { NoteTwo(r, Done(503), AuditLost(RunDenied), Replied(503)); }
  }

  lemma StartKeepsOrder(r: Request, committed: bool, authorises: bool)
    requires RequestOk(r) && r.pc.Starting?
    ensures var r' := Advance(r, AppendEnds(committed, authorises)); RequestOk(r') && SameHold(r, r')
  {
    hide Summarise, Orderly, UsageCost, Estimated;
    var r' := Advance(r, AppendEnds(committed, authorises));
    assert [] + [RunStarted] == [RunStarted];
    NoteOne(r, r'.pc, if committed then Audited(RunStarted) else AuditLost(RunStarted));
  }

  lemma CompletionKeepsOrder(r: Request, committed: bool)
    requires RequestOk(r) && r.pc.Completing?
    ensures var r' := Advance(r, AppendEnds(committed, false)); RequestOk(r') && SameHold(r, r')
  {
    hide Summarise, Orderly, UsageCost, Estimated;
    assert [RunStarted] + [RunCompleted] == [RunStarted, RunCompleted];
    if committed {
      NoteTwo(r, Done(200), Audited(RunCompleted), Replied(200));
    } else {
      NoteOne(r, Failing(503), AuditLost(RunCompleted));
    }
  }

  lemma FailureKeepsOrder(r: Request, committed: bool)
    requires RequestOk(r) && r.pc.Failing?
    ensures var r' := Advance(r, AppendEnds(committed, false)); RequestOk(r') && SameHold(r, r')
  {
    hide Summarise, Orderly, UsageCost, Estimated;
    assert [RunStarted] + [RunFailed] == [RunStarted, RunFailed];
    if committed { NoteTwo(r, Done(r.pc.status), Audited(RunFailed), Replied(r.pc.status)); }
    else { NoteTwo(r, Done(r.pc.status), AuditLost(RunFailed), Replied(r.pc.status)); }
  }

  lemma AppendKeepsOrder(r: Request, committed: bool, authorises: bool)
    requires RequestOk(r)
    ensures var r' := Advance(r, AppendEnds(committed, authorises)); RequestOk(r') && SameHold(r, r')
  {
    hide RequestOk, Note;
    match r.pc
    case Denying(_) => DenialKeepsOrder(r, committed);
    case Starting(_, _, _) => StartKeepsOrder(r, committed, authorises);
    case Completing(_, _, _) => CompletionKeepsOrder(r, committed);
    case Failing(_) => FailureKeepsOrder(r, committed);
    case _ =>
  }

  lemma AdvanceKeepsOrder(r: Request, e: Event)
    requires RequestOk(r)
    ensures RequestOk(Advance(r, e)) && SameHold(r, Advance(r, e))
  {
    hide Admitted, SettlementCost, UsageCost, Estimated, Summarise, Orderly;
    if r.pc.Received? && e.Admit? {
      AdmittedKeepsOrder(r, e.verdict);
    } else if e.AppendEnds? {
      AppendKeepsOrder(r, e.committed, e.authorises);
    } else if r.pc.Calling? && e.BackendEnds? {
      UsageCostWithinHold(r.pc.price, r.pc.max, e.result);
      if e.result.Answered? {
        SettlementIsUsageCost(r.pc.price, r.pc.max, e.result.promptTokens, e.result.completionTokens);
      } else {
        FailureIsFree(r.pc.price, r.pc.max, e.result);
      }
      NoteOne(r, Advance(r, e).pc, BackendCalled(e.result));
    }
  }

  lemma ReservingKeepsOrder(k: Calendar, t: Tables, r: Request, reached: bool, now: int)
    requires RequestOk(r) && r.pc.Holding?
    ensures RequestOk(Reserving(k, t, r, reached, now).1)
    ensures var (t', r') := Reserving(k, t, r, reached, now);
            if r'.pc.Starting?
            then Summarise(r'.trace).hold == Some((|t.rows|, r.pc.order.max)) && Summarise(r'.trace).settles == 0
            else t' == t && SameHold(r, r')
  {
    var r' := Reserving(k, t, r, reached, now).1;
    if r'.pc.Starting? { NoteOne(r, r'.pc, HoldTaken(r'.pc.id, r.pc.order.max)); }
    else if r'.pc.Denying? { NoteOne(r, r'.pc, HoldRefused); }
    else { NoteTwo(r, r'.pc, HoldRefused, Replied(503)); }
  }

  lemma SettlingKeepsOrder(k: Calendar, t: Tables, r: Request, reached: bool, now: int)
    requires RequestOk(r) && r.pc.Settling?
    requires r.pc.id < |t.rows| && t.rows[r.pc.id].max == r.pc.max
    ensures var r' := SettlingNow(k, t, r, reached, now).1;
            && RequestOk(r')
            && Summarise(r'.trace).hold == Summarise(r.trace).hold
            && Summarise(r'.trace).settles == 1
            && Summarise(r'.trace).settled.Some? == (reached && Settle(k, t, r.pc.id, Some(r.pc.actual), now).1.Ok?)
  {
    var r' := SettlingNow(k, t, r, reached, now).1;
    var res := Settle(k, t, r.pc.id, Some(r.pc.actual), now).1;
    assert res.Ok? ==> res.value == r.pc.actual;
    var effect := if reached && res.Ok? then HoldSettled(r.pc.id, res.value) else SettleLost(r.pc.id);
    if r.pc.next.ThenReply? {
      NoteTwo(r, r'.pc, effect, Replied(r.pc.next.status));
    } else {
      NoteOne(r, r'.pc, effect);
    }
  }
}
