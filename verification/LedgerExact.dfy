/**
 What each ledger call does, said without its running totals: in terms of the open rows and the settlement history.
 */
module LedgerExact {
  import opened Common
  import opened Ledger
  import opened LedgerInvariants

  // ---------- windows ----------

  /** What `p` has spent in the daily window that a call at `now` sees. */
  function SpentInDay(s: Tables, p: Uuid, now: int): int
    requires p in s.accounts
  {
    if now >= s.accounts[p].dayEnd then 0 else BookedInDay(s.charges, p, s.accounts[p].dayStart)
  }

  function SpentInMonth(s: Tables, p: Uuid, now: int): int
    requires p in s.accounts
  {
    if now >= s.accounts[p].monthEnd then 0 else BookedInMonth(s.charges, p, s.accounts[p].monthStart)
  }

  /** Both windows are whole calendar windows. */
  ghost predicate OnCalendar(k: Calendar, a: Account) {
    && (exists t :: a.dayStart == k.dayStart(t) && a.dayEnd == k.dayEnd(t))
    && (exists t :: a.monthStart == k.monthStart(t) && a.monthEnd == k.monthEnd(t))
  }

  /**
   Rolling ends with calendar windows that have not passed, and rolling once more at the same time changes nothing.
   */
  lemma RolledWindowsAreCurrent(k: Calendar, a: Account, now: int)
    requires ValidCalendar(k) && OnCalendar(k, a)
    ensures var b := RollPeriods(k, a, now);
            OnCalendar(k, b) && now < b.dayEnd && now < b.monthEnd && RollPeriods(k, b, now) == b
  {
    assert k.dayStart(now) <= now < k.dayEnd(now) && k.monthStart(now) <= now < k.monthEnd(now);
  }

  // ---------- reserving ----------

  predicate Fits(s: Tables, p: Uuid, max: int, now: int)
    requires p in s.accounts
  {
    && SpentInDay(s, p, now) + OpenTotal(s.rows, p) + max <= s.accounts[p].dayLimit
    && SpentInMonth(s, p, now) + OpenTotal(s.rows, p) + max <= s.accounts[p].monthLimit
  }

  /**
   After any run, a reservation is granted exactly to an active principal with an account whose spend, recomputed from
   the settlement history, plus open holds, recomputed from the rows, leaves room for it; each refusal has its own
   cause.
   */
  lemma ReserveGrantedExactly(k: Calendar, calls: seq<Call>, p: Uuid, runId: Uuid, model: string, max: int, ttl: int,
                              now: int)
    requires ValidCalendar(k)
    ensures var s := After(k, calls); var r := Reserve(k, s, p, runId, model, max, ttl, now).1;
            var entitled := p in s.active && s.active[p] && p in s.accounts && Fits(s, p, max, now);
            && (r == Err(InvalidReservation) <==> !ValidReserveArgs(model, max, ttl))
            && (r == Err(BudgetDenied) <==> ValidReserveArgs(model, max, ttl) && !entitled)
            && (r == Err(Unavailable) <==> ValidReserveArgs(model, max, ttl) && entitled && RunIdTaken(s.rows, runId))
            && (r.Ok? <==> ValidReserveArgs(model, max, ttl) && entitled && !RunIdTaken(s.rows, runId))
  {
    hide After, OpenTotal, BookedInDay, BookedInMonth, RunIdTaken, ValidReserveArgs;
    InvAlways(k, calls);
    var s := After(k, calls);
    ReserveNeverTripsChecks(k, s, p, runId, model, max, ttl, now);
    if p in s.accounts { Totals(k, s, p); }
  }

  lemma Totals(k: Calendar, s: Tables, p: Uuid)
    requires Inv(k, s) && p in s.accounts
    ensures AccountOk(k, s.accounts[p], p, s.rows, s.charges)
  {
  }

  /**
   What the call accepts as arguments: a model name that is not all spaces, a positive amount, up to a day to live.
   */
  lemma ReserveArgsExactly(model: string, max: int, ttl: int)
    ensures ValidReserveArgs(model, max, ttl) <==>
            && (exists i :: 0 <= i < |model| && model[i] != ' ') && |model| < 129 && max >= 1 && 1 <= ttl < 86401
  {
  }

  predicate RunsDistinct(rows: seq<Reservation>) {
    forall i, j :: 0 <= i < j < |rows| ==> rows[i].runId != rows[j].runId
  }

  lemma TakenExactly(rows: seq<Reservation>, runId: Uuid)
    ensures RunIdTaken(rows, runId) <==> runId in (set r | r in rows :: r.runId)
  {
    if runId in (set r | r in rows :: r.runId) {
      var r :| r in rows && r.runId == runId;
      var i :| 0 <= i < |rows| && rows[i] == r;
    }
  }

  lemma ApplyKeepsRunsDistinct(k: Calendar, s: Tables, c: Call)
    requires ValidCalendar(k) && Inv(k, s) && RunsDistinct(s.rows)
    ensures RunsDistinct(Apply(k, s, c).rows)
  {
    hide Inv, ValidCalendar;
    var t := Apply(k, s, c);
    if c.CallReserve? {
      hide RollPeriods, AccountChecks, RowChecks;
      if |t.rows| > |s.rows| {
        assert t.rows == s.rows + [NewRow(c.p, c.runId, c.model, c.max, c.ttlSeconds, c.now)];
        assert !RunIdTaken(s.rows, c.runId);
      }
    } else {
      hide Apply, RowAdvance;
      ApplyAdvances(k, s, c);
      OnlyReserveAddsRows(k, s, c);
      forall i | 0 <= i < |t.rows| ensures t.rows[i].runId == s.rows[i].runId { KeepsDueTime(s.rows[i], t.rows[i]); }
    }
  }

  lemma OnlyReserveAddsRows(k: Calendar, s: Tables, c: Call)
    requires !c.CallReserve?
    ensures |Apply(k, s, c).rows| == |s.rows|
  {
    hide ExpireEach, QueryResult, RollPeriods, RowChecks, AccountChecks;
  }

  /** After any run, no two reservations share a run id. */
  lemma {:induction false} RunIdsStayDistinct(k: Calendar, calls: seq<Call>)
    requires ValidCalendar(k)
    ensures RunsDistinct(After(k, calls).rows)
  {
    hide Apply, RunsDistinct, Inv;
    if calls == [] {
      NoRowsNoRuns();
    } else {
      RunIdsStayDistinct(k, calls[..|calls| - 1]);
      InvAlways(k, calls[..|calls| - 1]);
      ApplyKeepsRunsDistinct(k, After(k, calls[..|calls| - 1]), calls[|calls| - 1]);
    }
  }

  lemma NoRowsNoRuns()
    ensures RunsDistinct([])
  {
  }

  // ---------- the tables' own constraints ----------

  /** After any run every account row satisfies the CHECK constraints declared for its table. */
  lemma AccountsMeetConstraints(k: Calendar, calls: seq<Call>, p: Uuid)
    requires ValidCalendar(k) && p in After(k, calls).accounts
    ensures var a := After(k, calls).accounts[p];
            && 0 < a.dayLimit && 0 < a.monthLimit
            && 0 <= a.dayCommitted && 0 <= a.dayReserved && 0 <= a.monthCommitted && 0 <= a.monthReserved
            && a.dayStart < a.dayEnd && a.monthStart < a.monthEnd
            && a.dayCommitted + a.dayReserved <= a.dayLimit && a.monthCommitted + a.monthReserved <= a.monthLimit
  {
    hide After;
    InvAlways(k, calls);
    Totals(k, After(k, calls), p);
  }

  /** After any run every reservation row satisfies the CHECK constraints declared for its table. */
  lemma RowsMeetConstraints(k: Calendar, calls: seq<Call>, id: nat)
    requires ValidCalendar(k) && id < |After(k, calls).rows|
    ensures var r := After(k, calls).rows[id];
            && (exists i :: 0 <= i < |r.model| && r.model[i] != ' ') && 0 < r.max && r.createdAt < r.expiresAt
            && (r.settledActual.Some? ==> 0 <= r.settledActual.value) && (r.state.Reserved? ==> r.settledAt.None?)
  {
    hide After, BookedOnce, AccountOk;
    InvAlways(k, calls);
    var r := After(k, calls).rows[id];
    assert RowOk(r);
    var i :| 0 <= i < |r.model| && r.model[i] != ' ';
  }

  // ---------- limits ----------

  /**
   After any run, new limits are refused exactly when malformed, for an unknown principal, or below what is already
   spent and held.
   */
  lemma LimitsAcceptedExactly(k: Calendar, calls: seq<Call>, p: Uuid, d: int, mo: int, now: int)
    requires ValidCalendar(k)
    ensures var s := After(k, calls); var r := SetBudget(k, s, p, d, mo, now).1;
            r.Ok? <==> && 0 < d <= mo && p in s.active
                       && (p in s.accounts ==>
                             && BookedInDay(s.charges, p, s.accounts[p].dayStart) + OpenTotal(s.rows, p) <= d
                             && BookedInMonth(s.charges, p, s.accounts[p].monthStart) + OpenTotal(s.rows, p) <= mo)
  {
    hide After, OpenTotal, BookedInDay, BookedInMonth;
    InvAlways(k, calls);
    var s := After(k, calls);
    if p in s.accounts { Totals(k, s, p); }
    assert k.dayStart(now) <= now < k.dayEnd(now) && k.monthStart(now) <= now < k.monthEnd(now);
  }

  /** The limits that an accepted call stores, and everything that it leaves alone. */
  lemma LimitsStoredExactly(k: Calendar, s: Tables, p: Uuid, d: int, mo: int, now: int)
    requires ValidCalendar(k)
    ensures var (s', r) := SetBudget(k, s, p, d, mo, now);
            && (r.Err? ==> s' == s)
            && (r.Ok? ==>
                  && p in s'.accounts && s'.accounts[p].dayLimit == d && s'.accounts[p].monthLimit == mo
                  && s'.accounts.Keys == s.accounts.Keys + {p}
                  && (forall q :: q in s.accounts && q != p ==> s'.accounts[q] == s.accounts[q])
                  && s'.rows == s.rows && s'.charges == s.charges && s'.active == s.active
                  && var b := s'.accounts[p];
                     if p in s.accounts
                     then var a := s.accounts[p];
                          && SameWindows(a, b) && b.dayCommitted == a.dayCommitted
                             && b.monthCommitted == a.monthCommitted
                          && b.dayReserved == a.dayReserved && b.monthReserved == a.monthReserved
                     else && b.dayStart <= now < b.dayEnd && b.monthStart <= now < b.monthEnd && OnCalendar(k, b)
                          && b.dayCommitted == b.monthCommitted == b.dayReserved == b.monthReserved == 0)
  {
    hide AccountChecks;
    assert k.dayStart(now) <= now < k.dayEnd(now) && k.monthStart(now) <= now < k.monthEnd(now);
  }

  predicate SameWindows(a: Account, b: Account) {
    b.dayStart == a.dayStart && b.dayEnd == a.dayEnd && b.monthStart == a.monthStart && b.monthEnd == a.monthEnd
  }

  /** The daily and monthly limit of the last accepted limit change for `p` in the run. */
  function LastLimits(k: Calendar, calls: seq<Call>, p: Uuid): Option<(int, int)> {
    if calls == [] then None
    else
      var before, last := calls[..|calls| - 1], calls[|calls| - 1];
      if last.CallSetBudget? && last.p == p
         && SetBudget(k, After(k, before), p, last.dayLimit, last.monthLimit, last.now).1.Ok?
      then Some((last.dayLimit, last.monthLimit))
      else LastLimits(k, before, p)
  }

  /** What an account's row says about its limits. */
  function StoredLimits(s: Tables, p: Uuid): Option<(int, int)> {
    if p in s.accounts then Some((s.accounts[p].dayLimit, s.accounts[p].monthLimit)) else None
  }

  lemma {:induction false} ExpireEachKeepsLimits(k: Calendar, s: Tables, order: seq<nat>, now: int, p: Uuid)
    requires forall i :: 0 <= i < |order| ==> order[i] < |s.rows|
    ensures StoredLimits(ExpireEach(k, s, order, now), p) == StoredLimits(s, p)
  {
    if order != [] { ExpireEachKeepsLimits(k, s, order[..|order| - 1], now, p); }
  }

  lemma OthersKeepLimits(k: Calendar, s: Tables, c: Call, p: Uuid)
    requires !(c.CallSetBudget? && c.p == p)
    ensures StoredLimits(Apply(k, s, c), p) == StoredLimits(s, p)
  {
    hide AccountChecks, RowChecks;
    if c.CallExpire? && QueryResult(s, c.order, c.now) { ExpireEachKeepsLimits(k, s, c.order, c.now, p); }
  }

  /**
   After any run, an account exists exactly if limits were accepted for it, and its limits are the last ones accepted.
   */
  lemma {:induction false} LimitsAreLastAccepted(k: Calendar, calls: seq<Call>, p: Uuid)
    requires ValidCalendar(k)
    ensures StoredLimits(After(k, calls), p) == LastLimits(k, calls, p)
  {
    hide Apply;
    if calls != [] {
      var before, last := calls[..|calls| - 1], calls[|calls| - 1];
      LimitsAreLastAccepted(k, before, p);
      if last.CallSetBudget? && last.p == p {
        LimitsStoredExactly(k, After(k, before), p, last.dayLimit, last.monthLimit, last.now);
        SetBudgetApplies(k, After(k, before), last);
      } else {
        OthersKeepLimits(k, After(k, before), last, p);
      }
    }
  }

  lemma SetBudgetApplies(k: Calendar, s: Tables, c: Call)
    requires c.CallSetBudget?
    ensures Apply(k, s, c) == SetBudget(k, s, c.p, c.dayLimit, c.monthLimit, c.now).0
  {
  }

  /** Malformed limits are refused as such in every state, and only they are. */
  lemma LimitErrorsExactly(k: Calendar, s: Tables, p: Uuid, d: int, mo: int, now: int)
    ensures SetBudget(k, s, p, d, mo, now).1 == Err(InvalidLimits) <==> !(0 < d <= mo)
  {
    hide AccountChecks;
  }

  // ---------- settling ----------

  /** After any run, each refusal of a settlement has its own cause. */
  lemma SettleRefusedExactly(k: Calendar, calls: seq<Call>, id: nat, actual: Option<int>, now: int)
    requires ValidCalendar(k)
    ensures var s := After(k, calls); var r := Settle(k, s, id, actual, now).1;
            var negative := actual.Some? && actual.value < 0;
            && (r == Err(NotFound) <==> !negative && id >= |s.rows|)
            && (r == Err(InvalidReservation) <==> negative || (id < |s.rows| && !s.rows[id].state.Reserved?))
            && (r.Ok? || r == Err(NotFound) || r == Err(InvalidReservation))
  {
    hide After;
    SettleOfOpenHoldSucceeds(k, calls, id, actual, now);
    InvAlways(k, calls);
  }

  /**
   On any account, booking moves the whole hold out of both reserved totals and the amount into both committed ones.
   */
  lemma BookingConserves(a: Account, max: int, amount: int, now: int)
    ensures var b := Book(a, max, amount, now);
            && a.dayReserved - b.dayReserved == max && a.monthReserved - b.monthReserved == max
            && b.dayCommitted - a.dayCommitted == amount && b.monthCommitted - a.monthCommitted == amount
            && SameWindows(a, b) && b.dayLimit == a.dayLimit && b.monthLimit == a.monthLimit
  {
  }

  /**
   On any account, releasing takes the hold out of each reserved total, or what there is of it, and touches nothing
   else.
   */
  lemma ReleaseConserves(a: Account, max: int, now: int)
    requires a.dayReserved >= 0 && a.monthReserved >= 0 && max >= 0
    ensures var b := Release(a, max, now);
            && 0 <= b.dayReserved <= a.dayReserved && a.dayReserved - b.dayReserved == Min(max, a.dayReserved)
            && 0 <= b.monthReserved <= a.monthReserved && a.monthReserved - b.monthReserved == Min(max, a.monthReserved)
            && b.dayCommitted == a.dayCommitted && b.monthCommitted == a.monthCommitted
            && SameWindows(a, b) && b.dayLimit == a.dayLimit && b.monthLimit == a.monthLimit
  {
  }

  // ---------- the granted hold ----------

  /**
   What a granted reservation adds: one open row for the caller's run, model and amount, which falls due exactly `ttl`
   seconds (in microseconds) after the call and not before.
   */
  lemma GrantedRowExactly(k: Calendar, s: Tables, p: Uuid, runId: Uuid, model: string, max: int, ttl: int, now: int)
    ensures var (s', r) := Reserve(k, s, p, runId, model, max, ttl, now);
            r.Ok? ==>
              && r.value == |s.rows| && |s'.rows| == |s.rows| + 1 && s'.rows[..|s.rows|] == s.rows
              && var row := s'.rows[r.value];
                 && row.principal == p && row.runId == runId && row.model == model && row.max == max
                 && row.state.Reserved? && row.settledActual.None? && row.settledAt.None?
                 && row.expiresAt == now + ttl * 1_000_000 && row.createdAt == now
                 && forall t :: Due(row, t) <==> t - now >= ttl * 1_000_000
  {
    hide AccountChecks, RollPeriods;
  }

  /** ... and it stays so until it is settled or expired, whatever happens to others. */
  lemma HoldStaysDueThen(k: Calendar, calls: seq<Call>, p: Uuid, runId: Uuid, model: string, max: int, ttl: int,
                         now: int,
                         more: seq<Call>)
    requires ValidCalendar(k) && Reserve(k, After(k, calls), p, runId, model, max, ttl, now).1.Ok?
    ensures var id := |After(k, calls).rows|;
            var u := After(k, calls + [CallReserve(p, runId, model, max, ttl, now)] + more);
            && id < |u.rows| && u.rows[id].principal == p && u.rows[id].runId == runId && u.rows[id].max == max
            && forall t :: Due(u.rows[id], t) <==> u.rows[id].state.Reserved? && t - now >= ttl * 1_000_000
  {
    hide Reserve, RowAdvance, Inv;
    var c := CallReserve(p, runId, model, max, ttl, now);
    var run := calls + [c];
    assert run[..|run| - 1] == calls;
    GrantedRowExactly(k, After(k, calls), p, runId, model, max, ttl, now);
    assert After(k, run).rows == Reserve(k, After(k, calls), p, runId, model, max, ttl, now).0.rows;
    RunsOnlyAdvance(k, run, more);
    var id := |After(k, calls).rows|;
    KeepsDueTime(After(k, run).rows[id], After(k, run + more).rows[id]);
  }

  lemma KeepsDueTime(r: Reservation, r': Reservation)
    requires RowAdvance(r, r')
    ensures r'.expiresAt == r.expiresAt && r'.principal == r.principal && r'.runId == r.runId && r'.max == r.max
  {
  }

  // ---------- expiry ----------

  /** Some row in `order` belongs to `p`. */
  predicate Touches(s: Tables, order: seq<nat>, p: Uuid) {
    exists i :: 0 <= i < |order| && order[i] < |s.rows| && s.rows[order[i]].principal == p
  }

  /** An account after expiry: rolled once, with reserved totals recomputed from the rows that stay open. */
  function ExpiredAccount(k: Calendar, a: Account, open: int, now: int): Account {
    RollPeriods(k, a, now).(dayReserved := open, monthReserved := open, updatedAt := now)
  }

  ghost predicate AccountsExpired(k: Calendar, s: Tables, order: seq<nat>, now: int, t: Tables) {
    && t.accounts.Keys == s.accounts.Keys
    && forall p {:trigger Touches(s, order, p)} :: p in s.accounts ==>
         t.accounts[p] == if Touches(s, order, p)
                          then ExpiredAccount(k, s.accounts[p], OpenTotal(t.rows, p), now) else s.accounts[p]
  }

  lemma RollTwice(k: Calendar, a: Account, open: int, now: int)
    requires ValidCalendar(k)
    ensures RollPeriods(k, ExpiredAccount(k, a, open, now), now) == ExpiredAccount(k, a, open, now)
  {
  }

  lemma RollKeepsReserved(k: Calendar, a: Account, now: int)
    ensures var b := RollPeriods(k, a, now); b.dayReserved == a.dayReserved && b.monthReserved == a.monthReserved
  {
  }

  /** One more row: its account is rolled, at most once in effect, and gives up exactly that row's amount. */
  lemma ExpireOneAccount(k: Calendar, t: Tables, i: nat, now: int)
    requires ValidCalendar(k) && Inv(k, t) && i < |t.rows| && t.rows[i].state.Reserved?
    ensures var u := ExpireRow(k, t, i, now); var p := t.rows[i].principal;
            && p in t.accounts
            && u.accounts == t.accounts[p := ExpiredAccount(k, t.accounts[p], OpenTotal(u.rows, p), now)]
            && forall q :: q != p ==> OpenTotal(u.rows, q) == OpenTotal(t.rows, q)
  {
    hide RollPeriods, Sum, BookedOnce;
    var u := ExpireRow(k, t, i, now);
    var p := t.rows[i].principal;
    OpenCovers(t, k, i);
    Totals(k, t, p);
    RollKeepsReserved(k, t.accounts[p], now);
    forall q ensures OpenTotal(u.rows, q) == OpenTotal(t.rows, q) - OpenWeight(q)(t.rows[i]) {
      SumUpdate(OpenWeight(q), t.rows, i, u.rows[i]);
    }
  }

  lemma TouchesStep(s: Tables, order: seq<nat>, p: Uuid)
    requires order != [] && order[|order| - 1] < |s.rows|
    ensures var n := |order| - 1;
            Touches(s, order, p) <==> Touches(s, order[..n], p) || s.rows[order[n]].principal == p
  {
    var n := |order| - 1;
    if Touches(s, order[..n], p) {
      var i :| 0 <= i < n && order[..n][i] < |s.rows| && s.rows[order[..n][i]].principal == p;
      assert order[i] == order[..n][i];
    }
    if Touches(s, order, p) {
      var i :| 0 <= i < |order| && order[i] < |s.rows| && s.rows[order[i]].principal == p;
      assert i < n ==> order[..n][i] == order[i];
    }
  }

  lemma NothingTouched(s: Tables, p: Uuid)
    ensures !Touches(s, [], p)
  {
  }

  lemma {:induction false} ExpireEachAccounts(k: Calendar, s: Tables, order: seq<nat>, now: int)
    requires ValidCalendar(k) && Inv(k, s) && QueryResult(s, order, now)
    ensures AccountsExpired(k, s, order, now, ExpireEach(k, s, order, now))
  {
    hide Inv, ValidCalendar, Touches, OpenTotal, RollPeriods, ExpireRow, Member, RowsExpired;
    if order == [] {
      forall p ensures !Touches(s, order, p) { NothingTouched(s, p); }
    } else {
      var n := |order| - 1;
      QueryPrefix(s, order, now);
      ExpireEachAccounts(k, s, order[..n], now);
      ExpireEachKeepsInv(k, s, order[..n], now);
      ExpireEachRows(k, s, order[..n], now);
      var t := ExpireEach(k, s, order[..n], now);
      QueriedIsDue(s, order, now, n);
      StillAsQueried(s, order[..n], now, t.rows, order[n]);
      ExpireStep(k, s, order, now, t);
    }
  }

  lemma StillAsQueried(s: Tables, order: seq<nat>, now: int, rows: seq<Reservation>, i: nat)
    requires RowsExpired(s, order, now, rows) && i < |rows| && !Member(i, order)
    ensures rows[i] == s.rows[i]
  {
  }

  lemma ExpireStep(k: Calendar, s: Tables, order: seq<nat>, now: int, t: Tables)
    requires ValidCalendar(k) && Inv(k, t) && order != []
    requires order[|order| - 1] < |s.rows| == |t.rows| && t.rows[order[|order| - 1]] == s.rows[order[|order| - 1]]
    requires t.rows[order[|order| - 1]].state.Reserved? && AccountsExpired(k, s, order[..|order| - 1], now, t)
    ensures AccountsExpired(k, s, order, now, ExpireRow(k, t, order[|order| - 1], now))
  {
    hide Inv, RollPeriods, Touches, OpenTotal, ExpireRow;
    var n := |order| - 1;
    var u, p := ExpireRow(k, t, order[n], now), t.rows[order[n]].principal;
    ExpireOneAccount(k, t, order[n], now);
    forall q | q in s.accounts
      ensures u.accounts[q] == if Touches(s, order, q)
                               then ExpiredAccount(k, s.accounts[q], OpenTotal(u.rows, q), now) else s.accounts[q]
    {
      TouchesStep(s, order, q);
      assert t.accounts[q] == if Touches(s, order[..n], q)
                              then ExpiredAccount(k, s.accounts[q], OpenTotal(t.rows, q), now) else s.accounts[q];
      if q == p { RollTwice(k, s.accounts[q], OpenTotal(t.rows, q), now); }
    }
  }

  /**
   After any run, in whatever order the loop meets the rows that the query returned: exactly those rows expire and are
   counted, every account that owned one is rolled to the call's time with its reserved totals equal to what its
   remaining open rows hold, and nothing else changes.
   */
  lemma ExpireExactly(k: Calendar, calls: seq<Call>, order: seq<nat>, now: int)
    requires ValidCalendar(k) && QueryResult(After(k, calls), order, now)
    ensures var s := After(k, calls); var (t, count) := Expire(k, s, order, now);
            && RowsExpired(s, order, now, t.rows) && count == |order|
            && AccountsExpired(k, s, order, now, t)
            && t.active == s.active && t.charges == s.charges
  {
    hide After, ExpireEach, Inv, QueryResult;
    InvAlways(k, calls);
    ExpireEachRows(k, After(k, calls), order, now);
    ExpireEachAccounts(k, After(k, calls), order, now);
  }

  /** The due rows among the first `n`, in table order. */
  function DueRows(rows: seq<Reservation>, now: int, n: nat): seq<nat>
    requires n <= |rows|
  {
    if n == 0 then []
    else if rows[n - 1].state.Reserved? && rows[n - 1].expiresAt <= now then DueRows(rows, now, n - 1) + [n - 1]
    else DueRows(rows, now, n - 1)
  }

  lemma {:induction false} DueRowsMembers(rows: seq<Reservation>, now: int, n: nat)
    requires n <= |rows|
    ensures var order := DueRows(rows, now, n);
            && (forall i :: 0 <= i < |order| ==> order[i] < n && Due(rows[order[i]], now))
            && (forall i, j :: 0 <= i < j < |order| ==> order[i] != order[j])
            && (forall i :: 0 <= i < n && Due(rows[i], now) ==> Member(i, order))
  {
    if n > 0 {
      DueRowsMembers(rows, now, n - 1);
      var before, order := DueRows(rows, now, n - 1), DueRows(rows, now, n);
      forall i | 0 <= i < n && Due(rows[i], now) ensures Member(i, order) {
        if i < n - 1 {
          assert Member(i, before);
          var j :| 0 <= j < |before| && before[j] == i;
          assert order[j] == i;
        } else {
          assert order[|before|] == i;
        }
      }
    }
  }

  /**
   A call that meets no locked row leaves nothing due: a query that returns all due rows exists, and expires them all.
   */
  lemma UnhinderedExpiryIsComplete(k: Calendar, calls: seq<Call>, now: int)
    requires ValidCalendar(k)
    ensures var s := After(k, calls); var order := DueRows(s.rows, now, |s.rows|);
            && QueryResult(s, order, now)
            && var t := Expire(k, s, order, now).0;
               forall i :: 0 <= i < |t.rows| ==> !(t.rows[i].state.Reserved? && t.rows[i].expiresAt <= now)
  {
    hide After, Member;
    var s := After(k, calls);
    var order := DueRows(s.rows, now, |s.rows|);
    DueRowsMembers(s.rows, now, |s.rows|);
    ExpireExactly(k, calls, order, now);
    var t := Expire(k, s, order, now).0;
    forall i | 0 <= i < |t.rows| ensures !(t.rows[i].state.Reserved? && t.rows[i].expiresAt <= now) {
      if !Member(i, order) { assert t.rows[i] == s.rows[i] && !Due(s.rows[i], now); }
    }
  }

  ghost predicate SameMembers(xs: seq<nat>, ys: seq<nat>) { forall i: nat :: Member(i, xs) <==> Member(i, ys) }

  lemma TouchesMembers(s: Tables, xs: seq<nat>, ys: seq<nat>, p: Uuid)
    requires SameMembers(xs, ys) && Touches(s, xs, p)
    ensures Touches(s, ys, p)
  {
    var i :| 0 <= i < |xs| && xs[i] < |s.rows| && s.rows[xs[i]].principal == p;
    assert Member(xs[i], xs);
    var j :| 0 <= j < |ys| && ys[j] == xs[i];
  }

  /** The order in which the query returns its rows has no effect on any table. */
  lemma OrderOfExpiryIsIrrelevant(k: Calendar, calls: seq<Call>, xs: seq<nat>, ys: seq<nat>, now: int)
    requires ValidCalendar(k) && QueryResult(After(k, calls), xs, now) && QueryResult(After(k, calls), ys, now)
    requires SameMembers(xs, ys)
    ensures Expire(k, After(k, calls), xs, now).0 == Expire(k, After(k, calls), ys, now).0
  {
    hide After, ExpireEach, QueryResult, Expire, Touches, Member, OpenTotal, RollPeriods;
    var s := After(k, calls);
    ExpireExactly(k, calls, xs, now);
    ExpireExactly(k, calls, ys, now);
    var t, u := Expire(k, s, xs, now).0, Expire(k, s, ys, now).0;
    assert t.rows == u.rows;
    forall p | p in s.accounts ensures t.accounts[p] == u.accounts[p] {
      if Touches(s, xs, p) { TouchesMembers(s, xs, ys, p); }
      if Touches(s, ys, p) { TouchesMembers(s, ys, xs, p); }
    }
    assert t.accounts == u.accounts;
  }

  // ---------- the hypotheses can be met ----------

  function MonthOf(t: int, days: int): int
    requires days > 0
  {
    t - t % days
  }

  /** Equal months of any number of days form a calendar. */
  lemma CalendarExists(days: int)
    requires days > 0
    ensures ValidCalendar(Calendar(t => t, t => t + 1, t => MonthOf(t, days), t => MonthOf(t, days) + days))
  {
    var k := Calendar(t => t, t => t + 1, t => MonthOf(t, days), t => MonthOf(t, days) + days);
    forall t, u | k.monthEnd(t) <= u ensures k.monthEnd(t) <= k.monthStart(u) { LaterMonth(t, u, days); }
  }

  lemma LaterMonth(t: int, u: int, days: int)
    requires days > 0 && MonthOf(t, days) + days <= u
    ensures MonthOf(t, days) + days <= MonthOf(u, days)
  {
    var a, b := t / days, u / days;
    assert MonthOf(t, days) == days * a && MonthOf(u, days) == days * b;
    if b <= a {
      NoGreater(days, b, a);
      assert false;
    }
    NoGreater(days, a + 1, b);
  }

  lemma NoGreater(days: int, b: int, a: int)
    requires days > 0 && b <= a
    ensures days * b <= days * a
  {
  }
}
