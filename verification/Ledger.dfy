/**
 The budget ledger: what each SQL function of the reservation protocol does to the
 account and reservation tables, as functions on table states. A call is one atomic
 step; the clock reading of a call is a parameter, so steps may carry any timestamps
 in any order.
 */
module Ledger {
  import opened Common

  /** A UUID in its textual form. */
  datatype Uuid = Uuid(text: string)

  // ---------- calendar ----------

  /**
   Day and month boundaries in the session's time zone: `dayStart` and `monthStart` truncate an instant, `dayEnd`
   and `monthEnd` are one calendar day and one calendar month after that.
   */
  datatype Calendar = Calendar(dayStart: int -> int, dayEnd: int -> int, monthStart: int -> int, monthEnd: int -> int)

  /** Days and months tile the time line in order, and every month boundary is a day boundary. */
  ghost predicate ValidCalendar(k: Calendar) {
    && (forall t :: k.dayStart(t) <= t < k.dayEnd(t))
    && (forall t :: k.monthStart(t) <= t < k.monthEnd(t))
    && (forall t, u :: k.dayEnd(t) <= u ==> k.dayEnd(t) <= k.dayStart(u))
    && (forall t, u :: k.monthEnd(t) <= u ==> k.monthEnd(t) <= k.monthStart(u))
    && (forall t, u :: u < k.monthEnd(t) ==> k.dayEnd(u) <= k.monthEnd(t))
    && (forall t :: k.monthStart(t) <= k.dayStart(t))
  }

  // ---------- tables ----------

  datatype Account = Account(
    dayLimit: int, monthLimit: int,
    dayStart: int, dayEnd: int, monthStart: int, monthEnd: int,
    dayCommitted: int, dayReserved: int, monthCommitted: int, monthReserved: int,
    updatedAt: int)

  datatype HoldState = Reserved | Settled | Released | Expired

  datatype Reservation = Reservation(
    runId: Uuid, principal: Uuid, model: string, max: int, settledActual: Option<int>,
    state: HoldState, createdAt: int, expiresAt: int, settledAt: Option<int>)

  /** History of settlements: which row was settled, and which account windows its amount was booked into. */
  datatype Charge = Charge(row: nat, principal: Uuid, amount: int, dayStart: int, monthStart: int)

  /**
   `active` maps every known principal to whether it is active. A reservation's id is its
   row number in `rows`, which stands for the fresh UUID that PostgreSQL generates.
   */
  datatype Tables = Tables(
    active: map<Uuid, bool>, accounts: map<Uuid, Account>, rows: seq<Reservation>, charges: seq<Charge>)

  datatype Error = InvalidReservation | BudgetDenied | NotFound | InvalidLimits | Unavailable

  /** The table constraints on an account row. */
  predicate AccountChecks(a: Account) {
    && a.dayLimit > 0 && a.monthLimit > 0
    && a.dayCommitted >= 0 && a.dayReserved >= 0 && a.monthCommitted >= 0 && a.monthReserved >= 0
    && a.dayEnd > a.dayStart && a.monthEnd > a.monthStart
    && a.dayCommitted + a.dayReserved <= a.dayLimit
    && a.monthCommitted + a.monthReserved <= a.monthLimit
  }

  predicate Blank(s: string) { forall i :: 0 <= i < |s| ==> s[i] == ' ' }

  /** The table constraints on a reservation row. */
  predicate RowChecks(r: Reservation) {
    && !Blank(r.model)
    && r.max > 0
    && (r.settledActual.Some? ==> r.settledActual.value >= 0)
    && r.expiresAt > r.createdAt
    && (r.state.Reserved? ==> r.settledAt.None?)
  }

  // ---------- the SQL functions ----------

  function RollPeriods(k: Calendar, a: Account, now: int): Account {
    var a1 := if now >= a.dayEnd
              then a.(dayStart := k.dayStart(now), dayEnd := k.dayEnd(now), dayCommitted := 0)
              else a;
    if now >= a1.monthEnd
    then a1.(monthStart := k.monthStart(now), monthEnd := k.monthEnd(now), monthCommitted := 0)
    else a1
  }

  predicate RunIdTaken(rows: seq<Reservation>, runId: Uuid) {
    exists i :: 0 <= i < |rows| && rows[i].runId == runId
  }

  predicate ValidReserveArgs(model: string, max: int, ttlSeconds: int) {
    !Blank(model) && |model| <= 128 && max > 0 && 0 < ttlSeconds <= 86400
  }

  /** The row that `reserve_budget` inserts. */
  function NewRow(p: Uuid, runId: Uuid, model: string, max: int, ttlSeconds: int, now: int): Reservation {
    Reservation(runId, p, model, max, None, Reserved, now, now + ttlSeconds * 1_000_000, None)
  }

  function Hold(a: Account, max: int, now: int): Account {
    a.(dayReserved := a.dayReserved + max, monthReserved := a.monthReserved + max, updatedAt := now)
  }

  function Reserve(k: Calendar, s: Tables, p: Uuid, runId: Uuid, model: string, max: int, ttlSeconds: int, now: int)
    : (Tables, Result<nat, Error>)
  {
    if !ValidReserveArgs(model, max, ttlSeconds) then (s, Err(InvalidReservation))
    else if p !in s.active || !s.active[p] then (s, Err(BudgetDenied))
    else if p !in s.accounts then (s, Err(BudgetDenied))
    else
      var a := RollPeriods(k, s.accounts[p], now);
      if a.dayCommitted + a.dayReserved + max > a.dayLimit || a.monthCommitted + a.monthReserved + max > a.monthLimit
      then (s, Err(BudgetDenied))
      else
        var row := NewRow(p, runId, model, max, ttlSeconds, now);
        if RunIdTaken(s.rows, runId) || !RowChecks(row) || !AccountChecks(Hold(a, max, now)) then (s, Err(Unavailable))
        else (s.(accounts := s.accounts[p := Hold(a, max, now)], rows := s.rows + [row]), Ok(|s.rows|))
  }

  function Min(a: int, b: int): int { if a <= b then a else b }

  /** What a settlement charges: the stated amount, capped at the hold; the whole hold if no amount is stated. */
  function ChargedAmount(actual: Option<int>, max: int): int {
    match actual
    case None => max
    case Some(v) => Min(v, max)
  }

  function Book(a: Account, max: int, amount: int, now: int): Account {
    a.(dayReserved := a.dayReserved - max, monthReserved := a.monthReserved - max,
       dayCommitted := a.dayCommitted + amount, monthCommitted := a.monthCommitted + amount, updatedAt := now)
  }

  function Settle(k: Calendar, s: Tables, id: nat, actual: Option<int>, now: int): (Tables, Result<int, Error>) {
    if actual.Some? && actual.value < 0 then (s, Err(InvalidReservation))
    else if id >= |s.rows| then (s, Err(NotFound))
    else
      var r := s.rows[id];
      if !r.state.Reserved? then (s, Err(InvalidReservation))
      else if r.principal !in s.accounts then (s, Err(BudgetDenied))
      else
        var a := RollPeriods(k, s.accounts[r.principal], now);
        var amount := ChargedAmount(actual, r.max);
        if a.dayReserved < r.max || a.monthReserved < r.max then (s, Err(InvalidReservation))
        else
          var r' := r.(state := Settled, settledActual := Some(amount), settledAt := Some(now));
          var a' := Book(a, r.max, amount, now);
          if !RowChecks(r') || !AccountChecks(a') then (s, Err(Unavailable))
          else (s.(accounts := s.accounts[r.principal := a'], rows := s.rows[id := r'],
                   charges := s.charges + [Charge(id, r.principal, amount, a.dayStart, a.monthStart)]),
                Ok(amount))
  }

  function SubtractOrZero(x: int, y: int): int { if x >= y then x - y else 0 }

  function Release(a: Account, max: int, now: int): Account {
    a.(dayReserved := SubtractOrZero(a.dayReserved, max), monthReserved := SubtractOrZero(a.monthReserved, max),
       updatedAt := now)
  }

  predicate Due(r: Reservation, now: int) { r.state.Reserved? && r.expiresAt <= now }

  /** What the expiry query may return: due rows, each once, in any order; due rows locked by others are skipped. */
  predicate QueryResult(s: Tables, order: seq<nat>, now: int) {
    && (forall i :: 0 <= i < |order| ==> order[i] < |s.rows| && Due(s.rows[order[i]], now))
    && forall i, j :: 0 <= i < j < |order| ==> order[i] != order[j]
  }

  /** One round of the expiry loop: row `i` is due and its lock was obtained. */
  function ExpireRow(k: Calendar, s: Tables, i: nat, now: int): Tables
    requires i < |s.rows|
  {
    var r := s.rows[i];
    var accounts := if r.principal in s.accounts
                    then s.accounts[r.principal := Release(RollPeriods(k, s.accounts[r.principal], now), r.max, now)]
                    else s.accounts;
    s.(accounts := accounts, rows := s.rows[i := r.(state := Expired, settledAt := Some(now))])
  }

  /** The expiry loop over the rows in `order`. */
  function ExpireEach(k: Calendar, s: Tables, order: seq<nat>, now: int): (t: Tables)
    requires forall i :: 0 <= i < |order| ==> order[i] < |s.rows|
    ensures |t.rows| == |s.rows|
  {
    if order == [] then s else ExpireRow(k, ExpireEach(k, s, order[..|order| - 1], now), order[|order| - 1], now)
  }

  /** An expiry call whose query returned `order`; any other `order` is no possible call and changes nothing. */
  function Expire(k: Calendar, s: Tables, order: seq<nat>, now: int): (Tables, nat) {
    if QueryResult(s, order, now) then (ExpireEach(k, s, order, now), |order|) else (s, 0)
  }

  function FreshAccount(k: Calendar, dayLimit: int, monthLimit: int, now: int): Account {
    Account(dayLimit, monthLimit, k.dayStart(now), k.dayEnd(now), k.monthStart(now), k.monthEnd(now), 0, 0, 0, 0, now)
  }

  function SetBudget(k: Calendar, s: Tables, p: Uuid, dayLimit: int, monthLimit: int, now: int)
    : (Tables, Result<(), Error>)
  {
    if dayLimit <= 0 || monthLimit <= 0 || dayLimit > monthLimit then (s, Err(InvalidLimits))
    else if p !in s.active then (s, Err(Unavailable))
    else
      var a := if p in s.accounts
               then s.accounts[p].(dayLimit := dayLimit, monthLimit := monthLimit, updatedAt := now)
               else FreshAccount(k, dayLimit, monthLimit, now);
      if !AccountChecks(a) then (s, Err(Unavailable)) else (s.(accounts := s.accounts[p := a]), Ok(()))
  }

  /** Administration of principals: creation, or a change of the active flag. Principals are never deleted. */
  function SetActive(s: Tables, p: Uuid, isActive: bool): Tables { s.(active := s.active[p := isActive]) }

  // ---------- runs ----------

  datatype Call =
    | CallReserve(p: Uuid, runId: Uuid, model: string, max: int, ttlSeconds: int, now: int)
    | CallSettle(id: nat, actual: Option<int>, now: int)
    | CallExpire(order: seq<nat>, now: int)
    | CallSetBudget(p: Uuid, dayLimit: int, monthLimit: int, now: int)
    | CallSetActive(p: Uuid, isActive: bool)

  function Apply(k: Calendar, s: Tables, c: Call): Tables {
    match c
    case CallReserve(p, runId, model, max, ttl, now) => Reserve(k, s, p, runId, model, max, ttl, now).0
    case CallSettle(id, actual, now) => Settle(k, s, id, actual, now).0
    case CallExpire(order, now) => Expire(k, s, order, now).0
    case CallSetBudget(p, d, mo, now) => SetBudget(k, s, p, d, mo, now).0
    case CallSetActive(p, isActive) => SetActive(s, p, isActive)
  }

  const EMPTY: Tables := Tables(map[], map[], [], [])

  /** The tables after a run of calls from the empty database, in the order in which their locks serialise them. */
  function After(k: Calendar, calls: seq<Call>): Tables {
    if calls == [] then EMPTY else Apply(k, After(k, calls[..|calls| - 1]), calls[|calls| - 1])
  }
}
