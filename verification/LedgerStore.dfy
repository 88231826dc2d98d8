/**
 The budget tables as the SQL functions see them: rows updated in place, one call at a time. Each method's effect is
 the function of the same call in module Ledger, for every table contents; LedgerInvariants proves what those functions
 keep.
 */
module LedgerStore {
  import opened Common
  import opened Ledger

  class BudgetStore {
    const calendar: Calendar
    var active: map<Uuid, bool>
    var accounts: map<Uuid, Account>
    var rows: seq<Reservation>
    ghost var charges: seq<Charge>

    ghost function Snapshot(): Tables
      reads this
    {
      Tables(active, accounts, rows, charges)
    }

    constructor (k: Calendar)
      ensures Snapshot() == EMPTY && calendar == k
    {
      calendar := k;
      active, accounts, rows, charges := map[], map[], [], [];
    }

    method ReserveBudget(p: Uuid, runId: Uuid, model: string, max: int, ttlSeconds: int, now: int)
      returns (r: Result<nat, Error>)
      modifies this
      ensures (Snapshot(), r) == Reserve(calendar, old(Snapshot()), p, runId, model, max, ttlSeconds, now)
    {
      if !ValidReserveArgs(model, max, ttlSeconds) { return Err(InvalidReservation); }
      if p !in active || !active[p] { return Err(BudgetDenied); }
      if p !in accounts { return Err(BudgetDenied); }
      var account := RollPeriods(calendar, accounts[p], now);
      if account.dayCommitted + account.dayReserved + max > account.dayLimit ||
         account.monthCommitted + account.monthReserved + max > account.monthLimit {
        return Err(BudgetDenied);
      }
      var row := NewRow(p, runId, model, max, ttlSeconds, now);
      account := account.(dayReserved := account.dayReserved + max,
                          monthReserved := account.monthReserved + max, updatedAt := now);
      if RunIdTaken(rows, runId) || !RowChecks(row) || !AccountChecks(account) { return Err(Unavailable); }
      r := Ok(|rows|);
      rows := rows + [row];
      accounts := accounts[p := account];
    }

    method SettleBudget(id: nat, actual: Option<int>, now: int) returns (r: Result<int, Error>)
      modifies this
      ensures (Snapshot(), r) == Settle(calendar, old(Snapshot()), id, actual, now)
    {
      if actual.Some? && actual.value < 0 { return Err(InvalidReservation); }
      if id >= |rows| { return Err(NotFound); }
      var reservation := rows[id];
      if !reservation.state.Reserved? { return Err(InvalidReservation); }
      var p := reservation.principal;
      if p !in accounts { return Err(BudgetDenied); }
      var account := RollPeriods(calendar, accounts[p], now);
      var amount := if actual.Some? then actual.value else reservation.max;
      if amount > reservation.max { amount := reservation.max; }
      if account.dayReserved < reservation.max || account.monthReserved < reservation.max {
        return Err(InvalidReservation);
      }
      var settled := reservation.(state := Settled, settledActual := Some(amount), settledAt := Some(now));
      ghost var charge := Charge(id, p, amount, account.dayStart, account.monthStart);
      account := account.(dayReserved := account.dayReserved - reservation.max,
                          monthReserved := account.monthReserved - reservation.max,
                          dayCommitted := account.dayCommitted + amount,
                          monthCommitted := account.monthCommitted + amount, updatedAt := now);
      if !RowChecks(settled) || !AccountChecks(account) { return Err(Unavailable); }
      rows := rows[id := settled];
      accounts := accounts[p := account];
      charges := charges + [charge];
      r := Ok(amount);
    }

    /** One round of the expiry loop. */
    method ExpireReservation(id: nat, now: int)
      requires id < |rows|
      modifies this
      ensures Snapshot() == ExpireRow(calendar, old(Snapshot()), id, now) && |rows| == |old(rows)|
    {
      var reservation := rows[id];
      if reservation.principal in accounts {
        var account := RollPeriods(calendar, accounts[reservation.principal], now);
        if account.dayReserved >= reservation.max {
          account := account.(dayReserved := account.dayReserved - reservation.max);
        } else {
          account := account.(dayReserved := 0);
        }
        if account.monthReserved >= reservation.max {
          account := account.(monthReserved := account.monthReserved - reservation.max);
        } else {
          account := account.(monthReserved := 0);
        }
        accounts := accounts[reservation.principal := account.(updatedAt := now)];
      }
      rows := rows[id := reservation.(state := Expired, settledAt := Some(now))];
    }

    /** `order` is what the query returned, in the order in which the loop meets it. */
    method ExpireBudgetReservations(order: seq<nat>, now: int) returns (count: nat)
      requires QueryResult(Snapshot(), order, now)
      modifies this
      ensures (Snapshot(), count) == Expire(calendar, old(Snapshot()), order, now)
    {
      hide ExpireRow, Due;
      count := 0;
      ghost var s := Snapshot();
      for i := 0 to |order|
        invariant |rows| == |s.rows| && count == i
        invariant Snapshot() == ExpireEach(calendar, s, order[..i], now)
      {
        assert order[..i + 1][..i] == order[..i];
        ExpireReservation(order[i], now);
        count := count + 1;
      }
      assert order[..|order|] == order;
    }

    method AdminSetBudget(p: Uuid, dayLimit: int, monthLimit: int, now: int) returns (r: Result<(), Error>)
      modifies this
      ensures (Snapshot(), r) == SetBudget(calendar, old(Snapshot()), p, dayLimit, monthLimit, now)
    {
      if dayLimit <= 0 || monthLimit <= 0 { return Err(InvalidLimits); }
      if dayLimit > monthLimit { return Err(InvalidLimits); }
      if p !in active { return Err(Unavailable); }
      var account := FreshAccount(calendar, dayLimit, monthLimit, now);
      if p in accounts {
        account := accounts[p].(dayLimit := dayLimit, monthLimit := monthLimit, updatedAt := now);
      }
      if !AccountChecks(account) { return Err(Unavailable); }
      accounts := accounts[p := account];
      r := Ok(());
    }
  }
}
