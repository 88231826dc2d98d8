/** What every call on the budget ledger keeps, and what follows for whole runs. */
module LedgerInvariants {
  import opened Common
  import opened Ledger

  // ---------- totals recomputed from the rows and from the settlement history ----------

  function OpenWeight(p: Uuid): Reservation -> int {
    (r: Reservation) => if r.principal == p && r.state.Reserved? then r.max else 0
  }

  function SettledWeight(p: Uuid): Reservation -> int {
    (r: Reservation) =>
      if r.principal == p && r.state.Settled? && r.settledActual.Some? then r.settledActual.value else 0
  }

  function DayWeight(p: Uuid, dayStart: int): Charge -> int {
    (c: Charge) => if c.principal == p && c.dayStart == dayStart then c.amount else 0
  }

  function MonthWeight(p: Uuid, monthStart: int): Charge -> int {
    (c: Charge) => if c.principal == p && c.monthStart == monthStart then c.amount else 0
  }

  function AnyWeight(p: Uuid): Charge -> int {
    (c: Charge) => if c.principal == p then c.amount else 0
  }

  /** What the open reservations of `p` hold. */
  function OpenTotal(rows: seq<Reservation>, p: Uuid): int { Sum(OpenWeight(p), rows) }

  /** What all settled reservations of `p` were charged. */
  function SettledTotal(rows: seq<Reservation>, p: Uuid): int { Sum(SettledWeight(p), rows) }

  /** What was booked for `p` while the daily window starting at `dayStart` was open. */
  function BookedInDay(charges: seq<Charge>, p: Uuid, dayStart: int): int { Sum(DayWeight(p, dayStart), charges) }

  function BookedInMonth(charges: seq<Charge>, p: Uuid, monthStart: int): int {
    Sum(MonthWeight(p, monthStart), charges)
  }

  function BookedEver(charges: seq<Charge>, p: Uuid): int { Sum(AnyWeight(p), charges) }

  // ---------- the invariant ----------

  ghost predicate WindowsOk(k: Calendar, a: Account) {
    && a.dayStart < a.dayEnd <= a.monthEnd
    && a.monthStart <= a.dayStart
    && (forall u :: a.dayEnd <= u ==> a.dayEnd <= k.dayStart(u))
    && (forall u :: a.monthEnd <= u ==> a.monthEnd <= k.monthStart(u))
    && (forall u :: u < a.monthEnd ==> k.dayEnd(u) <= a.monthEnd)
  }

  ghost predicate AccountOk(k: Calendar, a: Account, p: Uuid, rows: seq<Reservation>, charges: seq<Charge>) {
    && AccountChecks(a)
    && WindowsOk(k, a)
    && a.dayReserved == a.monthReserved == OpenTotal(rows, p)
    && a.dayCommitted == BookedInDay(charges, p, a.dayStart)
    && a.monthCommitted == BookedInMonth(charges, p, a.monthStart)
    && a.dayCommitted <= a.monthCommitted
    && (forall i :: 0 <= i < |charges| && charges[i].principal == p ==>
          charges[i].dayStart <= a.dayStart && charges[i].monthStart <= a.monthStart)
  }

  ghost predicate RowOk(r: Reservation) {
    && RowChecks(r)
    && (r.state.Settled? <==> r.settledActual.Some?)
    && (r.state.Settled? ==> r.settledActual.value <= r.max)
  }

  /** Charge `c` books the settled row that it names. */
  predicate Books(rows: seq<Reservation>, c: Charge) {
    && c.row < |rows|
    && var r := rows[c.row]; r.state.Settled? && r.principal == c.principal && r.settledActual == Some(c.amount)
  }

  predicate Charged(charges: seq<Charge>, id: nat) { exists i :: 0 <= i < |charges| && charges[i].row == id }

  /** The history and the settled rows are in one-to-one correspondence. */
  predicate BookedOnce(rows: seq<Reservation>, charges: seq<Charge>) {
    && (forall i :: 0 <= i < |charges| ==> Books(rows, charges[i]))
    && (forall i, j :: 0 <= i < j < |charges| ==> charges[i].row != charges[j].row)
    && (forall id :: 0 <= id < |rows| && rows[id].state.Settled? ==> Charged(charges, id))
  }

  ghost predicate Inv(k: Calendar, s: Tables) {
    && (forall p :: p in s.accounts ==> p in s.active)
    && (forall p {:trigger AccountOk(k, s.accounts[p], p, s.rows, s.charges)} ::
          p in s.accounts ==> AccountOk(k, s.accounts[p], p, s.rows, s.charges))
    && (forall i :: 0 <= i < |s.rows| ==> s.rows[i].principal in s.accounts && RowOk(s.rows[i]))
    && (forall i :: 0 <= i < |s.charges| ==> s.charges[i].principal in s.accounts && s.charges[i].amount >= 0)
    && (forall p :: BookedEver(s.charges, p) == SettledTotal(s.rows, p))
    && BookedOnce(s.rows, s.charges)
  }

  // ---------- one account ----------

  lemma WindowsRoll(k: Calendar, a: Account, now: int)
    requires ValidCalendar(k) && WindowsOk(k, a)
    ensures var b := RollPeriods(k, a, now);
            && WindowsOk(k, b)
            && (b.dayStart >= a.dayEnd ==> b.dayCommitted == 0)
            && (b.dayStart < a.dayEnd ==>
                b.dayStart == a.dayStart && b.dayEnd == a.dayEnd && b.dayCommitted == a.dayCommitted)
            && (b.monthStart >= a.monthEnd ==> b.monthCommitted == 0 && b.dayStart >= a.dayEnd)
            && (b.monthStart < a.monthEnd ==>
                  b.monthStart == a.monthStart && b.monthEnd == a.monthEnd && b.monthCommitted == a.monthCommitted)
  {
  }

  /** Rolling the windows, at whatever time, keeps everything known about the account. */
  lemma RollKeepsAccount(k: Calendar, a: Account, p: Uuid, rows: seq<Reservation>, charges: seq<Charge>, now: int)
    requires ValidCalendar(k) && AccountOk(k, a, p, rows, charges)
    ensures AccountOk(k, RollPeriods(k, a, now), p, rows, charges)
  {
    var b := RollPeriods(k, a, now);
    WindowsRoll(k, a, now);
    if b.dayStart != a.dayStart { SumZero(DayWeight(p, b.dayStart), charges); }
    if b.monthStart != a.monthStart { SumZero(MonthWeight(p, b.monthStart), charges); }
  }

  /** Accounts do not notice changes to rows and charges of other principals. */
  lemma OthersKeepAccount(k: Calendar, a: Account, p: Uuid, rows: seq<Reservation>, charges: seq<Charge>,
                          rows': seq<Reservation>, charges': seq<Charge>)
    requires AccountOk(k, a, p, rows, charges)
    requires OpenTotal(rows', p) == OpenTotal(rows, p)
    requires charges' == charges || (|charges'| == |charges| + 1 && charges'[..|charges|] == charges
                                     && charges'[|charges|].principal != p)
    ensures AccountOk(k, a, p, rows', charges')
  {
    if charges' != charges {
      assert charges' == charges + [charges'[|charges|]];
      SumAppend(DayWeight(p, a.dayStart), charges, charges'[|charges|]);
      SumAppend(MonthWeight(p, a.monthStart), charges, charges'[|charges|]);
    }
  }

  lemma OpenCovers(s: Tables, k: Calendar, i: nat)
    requires Inv(k, s) && i < |s.rows| && s.rows[i].state.Reserved?
    ensures OpenTotal(s.rows, s.rows[i].principal) >= s.rows[i].max
  {
    SumAtLeastMember(OpenWeight(s.rows[i].principal), s.rows, i);
  }

  // ---------- each call keeps the invariant ----------

  /** A step that touches the rows and charges of one principal needs to be checked on that principal's account only. */
  lemma OneAccountChanged(k: Calendar, s: Tables, s': Tables, p: Uuid)
    requires Inv(k, s) && p in s'.active && s'.active == s.active
    requires p in s'.accounts && s'.accounts == s.accounts[p := s'.accounts[p]]
    requires AccountOk(k, s'.accounts[p], p, s'.rows, s'.charges)
    requires forall i :: 0 <= i < |s'.rows| ==> s'.rows[i].principal in s'.accounts && RowOk(s'.rows[i])
    requires forall q :: q != p ==> OpenTotal(s'.rows, q) == OpenTotal(s.rows, q)
    requires s'.charges == s.charges
             || (|s'.charges| == |s.charges| + 1 && s'.charges[..|s.charges|] == s.charges
                 && s'.charges[|s.charges|].principal == p && s'.charges[|s.charges|].amount >= 0)
    requires forall q :: BookedEver(s'.charges, q) == SettledTotal(s'.rows, q)
    requires BookedOnce(s'.rows, s'.charges)
    ensures Inv(k, s')
  {
    hide BookedOnce;
    forall q | q in s'.accounts && q != p ensures AccountOk(k, s'.accounts[q], q, s'.rows, s'.charges) {
      OthersKeepAccount(k, s.accounts[q], q, s.rows, s.charges, s'.rows, s'.charges);
    }
    forall i | 0 <= i < |s'.charges| ensures s'.charges[i].principal in s'.accounts && s'.charges[i].amount >= 0 {
      if i < |s.charges| { assert s'.charges[i] == s'.charges[..|s.charges|][i] == s.charges[i]; }
    }
  }

  // ---------- the settlement history ----------

  lemma HoldKeepsBooks(rows: seq<Reservation>, charges: seq<Charge>, row: Reservation)
    requires BookedOnce(rows, charges) && row.state.Reserved?
    ensures BookedOnce(rows + [row], charges)
  {
    forall i | 0 <= i < |charges| ensures Books(rows + [row], charges[i]) { assert Books(rows, charges[i]); }
    forall id | 0 <= id < |rows| + 1 && (rows + [row])[id].state.Settled? ensures Charged(charges, id) {
      assert rows[id].state.Settled?;
    }
  }

  lemma ExpiryKeepsBooks(rows: seq<Reservation>, charges: seq<Charge>, id: nat, row: Reservation)
    requires BookedOnce(rows, charges) && id < |rows| && rows[id].state.Reserved? && row.state.Expired?
    ensures BookedOnce(rows[id := row], charges)
  {
    forall i | 0 <= i < |charges| ensures Books(rows[id := row], charges[i]) { assert Books(rows, charges[i]); }
    forall j | 0 <= j < |rows| && rows[id := row][j].state.Settled? ensures Charged(charges, j) {
      assert rows[j].state.Settled?;
    }
  }

  /** Settling a reserved row adds the one charge that books it. */
  lemma SettlementKeepsBooks(rows: seq<Reservation>, charges: seq<Charge>, row: Reservation, c: Charge)
    requires BookedOnce(rows, charges) && c.row < |rows| && rows[c.row].state.Reserved?
    requires row.state.Settled? && row.principal == c.principal && row.settledActual == Some(c.amount)
    ensures BookedOnce(rows[c.row := row], charges + [c])
  {
    var rows', charges' := rows[c.row := row], charges + [c];
    forall i | 0 <= i < |charges'| ensures Books(rows', charges'[i]) && (i < |charges| ==> charges'[i].row != c.row) {
      if i < |charges| { assert Books(rows, charges[i]); }
    }
    forall id | 0 <= id < |rows'| && rows'[id].state.Settled? ensures Charged(charges', id) {
      if id == c.row {
        assert charges'[|charges|].row == id;
      } else {
        assert Charged(charges, id);
        var i :| 0 <= i < |charges| && charges[i].row == id;
        assert charges'[i].row == id;
      }
    }
  }

  lemma HoldKeepsAccount(k: Calendar, a: Account, p: Uuid, rows: seq<Reservation>, charges: seq<Charge>,
                         row: Reservation, now: int)
    requires AccountOk(k, a, p, rows, charges)
    requires row.principal == p && row.state.Reserved? && row.max > 0
    requires a.dayCommitted + a.dayReserved + row.max <= a.dayLimit
    requires a.monthCommitted + a.monthReserved + row.max <= a.monthLimit
    ensures AccountOk(k, Hold(a, row.max, now), p, rows + [row], charges)
  {
    SumAppend(OpenWeight(p), rows, row);
  }

  lemma BookKeepsAccount(k: Calendar, a: Account, p: Uuid, rows: seq<Reservation>, charges: seq<Charge>, i: nat,
                         row: Reservation, amount: int, now: int)
    requires AccountOk(k, a, p, rows, charges)
    requires i < |rows| && rows[i].principal == p && rows[i].state.Reserved? && rows[i].max <= a.dayReserved
    requires row.principal == p && row.state.Settled? && 0 <= amount <= rows[i].max
    ensures AccountOk(k, Book(a, rows[i].max, amount, now), p, rows[i := row],
                      charges + [Charge(i, p, amount, a.dayStart, a.monthStart)])
  {
    var c := Charge(i, p, amount, a.dayStart, a.monthStart);
    SumUpdate(OpenWeight(p), rows, i, row);
    SumAppend(DayWeight(p, a.dayStart), charges, c);
    SumAppend(MonthWeight(p, a.monthStart), charges, c);
  }

  lemma ReleaseKeepsAccount(k: Calendar, a: Account, p: Uuid, rows: seq<Reservation>, charges: seq<Charge>, i: nat,
                            row: Reservation, now: int)
    requires AccountOk(k, a, p, rows, charges)
    requires i < |rows| && rows[i].principal == p && rows[i].state.Reserved? && 0 < rows[i].max <= a.dayReserved
    requires row.principal == p && row.state.Expired?
    ensures AccountOk(k, Release(a, rows[i].max, now), p, rows[i := row], charges)
  {
    SumUpdate(OpenWeight(p), rows, i, row);
  }

  lemma ReserveKeepsInv(k: Calendar, s: Tables, p: Uuid, runId: Uuid, model: string, max: int, ttl: int, now: int)
    requires ValidCalendar(k) && Inv(k, s)
    ensures Inv(k, Reserve(k, s, p, runId, model, max, ttl, now).0)
  {
    hide WindowsOk, RollPeriods, Sum, BookedOnce;
    var (s', r) := Reserve(k, s, p, runId, model, max, ttl, now);
    if r.Ok? {
      var row := NewRow(p, runId, model, max, ttl, now);
      RollKeepsAccount(k, s.accounts[p], p, s.rows, s.charges, now);
      HoldKeepsAccount(k, RollPeriods(k, s.accounts[p], now), p, s.rows, s.charges, row, now);
      forall q ensures OpenTotal(s'.rows, q) == OpenTotal(s.rows, q) + OpenWeight(q)(row) {
        SumAppend(OpenWeight(q), s.rows, row);
      }
      forall q ensures SettledTotal(s'.rows, q) == SettledTotal(s.rows, q) { SumAppend(SettledWeight(q), s.rows, row); }
      HoldKeepsBooks(s.rows, s.charges, row);
      OneAccountChanged(k, s, s', p);
    }
  }

  lemma SettledMoneyIsBooked(rows: seq<Reservation>, charges: seq<Charge>, i: nat, row: Reservation, c: Charge)
    requires i < |rows| && rows[i].state.Reserved?
    requires row.principal == rows[i].principal == c.principal && row.state.Settled?
             && row.settledActual == Some(c.amount)
    requires forall q :: BookedEver(charges, q) == SettledTotal(rows, q)
    ensures forall q :: BookedEver(charges + [c], q) == SettledTotal(rows[i := row], q)
    ensures forall q :: q != c.principal ==> OpenTotal(rows[i := row], q) == OpenTotal(rows, q)
  {
    forall q ensures BookedEver(charges + [c], q) == SettledTotal(rows[i := row], q) {
      SumUpdate(SettledWeight(q), rows, i, row);
      SumAppend(AnyWeight(q), charges, c);
      assert BookedEver(charges, q) == SettledTotal(rows, q);
    }
    forall q | q != c.principal ensures OpenTotal(rows[i := row], q) == OpenTotal(rows, q) {
      SumUpdate(OpenWeight(q), rows, i, row);
    }
  }

  lemma SettleKeepsInv(k: Calendar, s: Tables, id: nat, actual: Option<int>, now: int)
    requires ValidCalendar(k) && Inv(k, s)
    ensures Inv(k, Settle(k, s, id, actual, now).0)
  {
    hide WindowsOk, RollPeriods, Sum, BookedOnce;
    var (s', r) := Settle(k, s, id, actual, now);
    if r.Ok? {
      var p := s.rows[id].principal;
      var row := s'.rows[id];
      var c := s'.charges[|s.charges|];
      RollKeepsAccount(k, s.accounts[p], p, s.rows, s.charges, now);
      BookKeepsAccount(k, RollPeriods(k, s.accounts[p], now), p, s.rows, s.charges, id, row, r.value, now);
      SettledMoneyIsBooked(s.rows, s.charges, id, row, c);
      SettlementKeepsBooks(s.rows, s.charges, row, c);
      OneAccountChanged(k, s, s', p);
    }
  }

  lemma ExpireRowKeepsInv(k: Calendar, s: Tables, i: nat, now: int)
    requires ValidCalendar(k) && Inv(k, s)
    requires i < |s.rows| && s.rows[i].state.Reserved?
    ensures Inv(k, ExpireRow(k, s, i, now))
  {
    hide WindowsOk, RollPeriods, Sum, BookedOnce;
    var s' := ExpireRow(k, s, i, now);
    var p := s.rows[i].principal;
    OpenCovers(s, k, i);
    RollKeepsAccount(k, s.accounts[p], p, s.rows, s.charges, now);
    ReleaseKeepsAccount(k, RollPeriods(k, s.accounts[p], now), p, s.rows, s.charges, i, s'.rows[i], now);
    forall q ensures OpenTotal(s'.rows, q) == OpenTotal(s.rows, q) - OpenWeight(q)(s.rows[i]) {
      SumUpdate(OpenWeight(q), s.rows, i, s'.rows[i]);
    }
    forall q ensures SettledTotal(s'.rows, q) == SettledTotal(s.rows, q) {
      SumUpdate(SettledWeight(q), s.rows, i, s'.rows[i]);
    }
    ExpiryKeepsBooks(s.rows, s.charges, i, s'.rows[i]);
    OneAccountChanged(k, s, s', p);
  }

  predicate Member(i: nat, order: seq<nat>) { exists j :: 0 <= j < |order| && order[j] == i }

  function ExpiredRow(r: Reservation, now: int): Reservation { r.(state := Expired, settledAt := Some(now)) }

  /** Exactly the rows in `order` are expired. */
  predicate RowsExpired(s: Tables, order: seq<nat>, now: int, rows: seq<Reservation>) {
    && |rows| == |s.rows|
    && forall i {:trigger rows[i]} :: 0 <= i < |rows| ==>
         rows[i] == if Member(i, order) then ExpiredRow(s.rows[i], now) else s.rows[i]
  }

  /** A query result without its last row: a query result, and the last row is not in it. */
  lemma QueryPrefix(s: Tables, order: seq<nat>, now: int)
    requires QueryResult(s, order, now) && order != []
    ensures var n := |order| - 1; QueryResult(s, order[..n], now) && !Member(order[n], order[..n])
    ensures forall i :: Member(i, order) <==> Member(i, order[..|order| - 1]) || i == order[|order| - 1]
  {
    var n := |order| - 1;
    forall i ensures Member(i, order) <==> Member(i, order[..n]) || i == order[n] {
      if Member(i, order[..n]) {
        var j :| 0 <= j < n && order[..n][j] == i;
        assert order[j] == i;
      }
      if Member(i, order) {
        var j :| 0 <= j < |order| && order[j] == i;
        assert j < n ==> order[..n][j] == i;
      }
    }
  }

  /** In whatever order the loop meets them, the rows of the query and no others expire. */
  lemma {:induction false} ExpireEachRows(k: Calendar, s: Tables, order: seq<nat>, now: int)
    requires QueryResult(s, order, now)
    ensures var t := ExpireEach(k, s, order, now);
            RowsExpired(s, order, now, t.rows) && t.active == s.active && t.charges == s.charges
  {
    hide RollPeriods, QueryResult, Member;
    if order == [] {
      forall i ensures !Member(i, order) { NothingIsMember(i); }
    } else {
      QueryPrefix(s, order, now);
      ExpireEachRows(k, s, order[..|order| - 1], now);
    }
  }

  lemma NothingIsMember(i: nat)
    ensures !Member(i, [])
  {
  }

  lemma {:induction false} ExpireEachKeepsInv(k: Calendar, s: Tables, order: seq<nat>, now: int)
    requires ValidCalendar(k) && Inv(k, s) && QueryResult(s, order, now)
    ensures Inv(k, ExpireEach(k, s, order, now))
  {
    hide Inv, ValidCalendar, ExpireRow;
    if order != [] {
      var n := |order| - 1;
      QueryPrefix(s, order, now);
      ExpireEachKeepsInv(k, s, order[..n], now);
      ExpireEachRows(k, s, order[..n], now);
      ExpireRowKeepsInv(k, ExpireEach(k, s, order[..n], now), order[n], now);
    }
  }

  lemma FreshAccountOk(k: Calendar, s: Tables, p: Uuid, d: int, mo: int, now: int)
    requires ValidCalendar(k) && Inv(k, s) && p !in s.accounts && AccountChecks(FreshAccount(k, d, mo, now))
    ensures AccountOk(k, FreshAccount(k, d, mo, now), p, s.rows, s.charges)
  {
    hide Sum;
    var a := FreshAccount(k, d, mo, now);
    SumZero(OpenWeight(p), s.rows);
    SumZero(DayWeight(p, a.dayStart), s.charges);
    SumZero(MonthWeight(p, a.monthStart), s.charges);
    assert k.dayStart(now) <= now < k.dayEnd(now) && k.monthStart(now) <= now < k.monthEnd(now);
  }

  lemma SetBudgetKeepsInv(k: Calendar, s: Tables, p: Uuid, d: int, mo: int, now: int)
    requires ValidCalendar(k) && Inv(k, s)
    ensures Inv(k, SetBudget(k, s, p, d, mo, now).0)
  {
    hide Sum;
    var (s', r) := SetBudget(k, s, p, d, mo, now);
    if r.Ok? && p in s.accounts {
      assert AccountOk(k, s.accounts[p], p, s.rows, s.charges);
      OneAccountChanged(k, s, s', p);
    } else if r.Ok? {
      FreshAccountOk(k, s, p, d, mo, now);
      OneAccountChanged(k, s, s', p);
    }
  }

  lemma ApplyKeepsInv(k: Calendar, s: Tables, c: Call)
    requires ValidCalendar(k) && Inv(k, s)
    ensures Inv(k, Apply(k, s, c))
  {
    match c
    case CallReserve(p, runId, model, max, ttl, now) => ReserveKeepsInv(k, s, p, runId, model, max, ttl, now);
    case CallSettle(id, actual, now) => SettleKeepsInv(k, s, id, actual, now);
    case CallExpire(order, now) => if QueryResult(s, order, now) { ExpireEachKeepsInv(k, s, order, now); }
    case CallSetBudget(p, d, mo, now) => SetBudgetKeepsInv(k, s, p, d, mo, now);
    case CallSetActive(p, isActive) =>
  }

  // ---------- whole runs ----------

  lemma {:induction false} InvAlways(k: Calendar, calls: seq<Call>)
    requires ValidCalendar(k)
    ensures Inv(k, After(k, calls))
  {
    if calls != [] {
      InvAlways(k, calls[..|calls| - 1]);
      ApplyKeepsInv(k, After(k, calls[..|calls| - 1]), calls[|calls| - 1]);
    }
  }

  /** After any run the two running totals of every account are what its open reservations hold. */
  lemma ReservedMatchesOpenHolds(k: Calendar, calls: seq<Call>, p: Uuid)
    requires ValidCalendar(k) && p in After(k, calls).accounts
    ensures var s := After(k, calls); var a := s.accounts[p];
            a.dayReserved == a.monthReserved == OpenTotal(s.rows, p) >= 0
  {
    InvAlways(k, calls);
    assert AccountOk(k, After(k, calls).accounts[p], p, After(k, calls).rows, After(k, calls).charges);
  }

  /**
   After any run, committed spend is what was booked since the window opened, every booking names a settled row of its
   principal and amount, no two name the same row and none is missing, no limit is exceeded, and the day never shows
   more than the month.
   */
  lemma CommittedMatchesSettlements(k: Calendar, calls: seq<Call>, p: Uuid)
    requires ValidCalendar(k) && p in After(k, calls).accounts
    ensures var s := After(k, calls); var a := s.accounts[p];
            && a.dayCommitted == BookedInDay(s.charges, p, a.dayStart)
            && a.monthCommitted == BookedInMonth(s.charges, p, a.monthStart)
            && BookedEver(s.charges, p) == SettledTotal(s.rows, p)
            && BookedOnce(s.rows, s.charges)
            && 0 <= a.dayCommitted <= a.monthCommitted
            && a.dayCommitted + a.dayReserved <= a.dayLimit
            && a.monthCommitted + a.monthReserved <= a.monthLimit
  {
    InvAlways(k, calls);
    assert AccountOk(k, After(k, calls).accounts[p], p, After(k, calls).rows, After(k, calls).charges);
  }

  lemma BookedAccountPasses(a: Account, max: int, amount: int, now: int)
    requires AccountChecks(a) && a.dayReserved == a.monthReserved >= max && 0 <= amount <= max
    ensures AccountChecks(Book(a, max, amount, now))
  {
  }

  lemma SettleOpen(k: Calendar, s: Tables, id: nat, actual: Option<int>, now: int)
    requires ValidCalendar(k) && Inv(k, s)
    requires id < |s.rows| && s.rows[id].state.Reserved? && (actual.Some? ==> actual.value >= 0)
    ensures var r := Settle(k, s, id, actual, now).1;
            r.Ok? && 0 <= r.value <= s.rows[id].max && (actual.Some? ==> r.value <= actual.value)
  {
    var row := s.rows[id];
    var p := row.principal;
    var a := RollPeriods(k, s.accounts[p], now);
    assert AccountChecks(a) && a.dayReserved == a.monthReserved >= row.max by {
      OpenCovers(s, k, id);
      RollKeepsAccount(k, s.accounts[p], p, s.rows, s.charges, now);
    }
    BookedAccountPasses(a, row.max, ChargedAmount(actual, row.max), now);
  }

  /** Settling an open reservation can only succeed: the under-reserved guard and the table checks never fire. */
  lemma SettleOfOpenHoldSucceeds(k: Calendar, calls: seq<Call>, id: nat, actual: Option<int>, now: int)
    requires ValidCalendar(k)
    ensures var s := After(k, calls); var r := Settle(k, s, id, actual, now).1;
            r.Ok? <==> id < |s.rows| && s.rows[id].state.Reserved? && (actual.Some? ==> actual.value >= 0)
    ensures var s := After(k, calls); var r := Settle(k, s, id, actual, now).1;
            r.Ok? ==> 0 <= r.value <= s.rows[id].max && (actual.Some? ==> r.value <= actual.value)
  {
    InvAlways(k, calls);
    var s := After(k, calls);
    if id < |s.rows| && s.rows[id].state.Reserved? && (actual.Some? ==> actual.value >= 0) {
      SettleOpen(k, s, id, actual, now);
    }
  }

  /**
   Wherever the expiry loop stands in whatever order, the next row finds both reserved totals large enough: no
   saturate-to-zero branch is ever taken and no table check violated.
   */
  lemma ExpiryNeverSaturates(k: Calendar, calls: seq<Call>, order: seq<nat>, now: int)
    requires ValidCalendar(k) && QueryResult(After(k, calls), order, now) && order != []
    ensures var s := After(k, calls); var n := |order| - 1;
            var t := ExpireEach(k, s, order[..n], now); var r := s.rows[order[n]];
            && t.rows[order[n]] == r && r.principal in t.accounts
            && var a := RollPeriods(k, t.accounts[r.principal], now);
               && a.dayReserved >= r.max && a.monthReserved >= r.max
               && AccountChecks(Release(a, r.max, now))
  {
    hide After, ExpireEach, QueryResult, BookedOnce, Member;
    InvAlways(k, calls);
    var s, n := After(k, calls), |order| - 1;
    QueryPrefix(s, order, now);
    ExpireEachRows(k, s, order[..n], now);
    ExpireEachKeepsInv(k, s, order[..n], now);
    var t, i := ExpireEach(k, s, order[..n], now), order[n];
    QueriedIsDue(s, order, now, n);
    var p := t.rows[i].principal;
    OpenCovers(t, k, i);
    RollKeepsAccount(k, t.accounts[p], p, t.rows, t.charges, now);
  }

  lemma QueriedIsDue(s: Tables, order: seq<nat>, now: int, n: nat)
    requires QueryResult(s, order, now) && n < |order|
    ensures order[n] < |s.rows| && Due(s.rows[order[n]], now)
  {
  }

  lemma ReserveNeverTripsChecks(k: Calendar, s: Tables, p: Uuid, runId: Uuid, model: string, max: int, ttl: int,
                                now: int)
    requires ValidCalendar(k) && Inv(k, s)
    ensures Reserve(k, s, p, runId, model, max, ttl, now).1 == Err(Unavailable) ==> RunIdTaken(s.rows, runId)
  {
    if p in s.accounts {
      assert AccountChecks(RollPeriods(k, s.accounts[p], now)) by {
        RollKeepsAccount(k, s.accounts[p], p, s.rows, s.charges, now);
      }
    }
  }

  /** A reservation moves the open total of its own principal by exactly what it was granted, and no other total. */
  lemma ReserveMovesExactly(k: Calendar, s: Tables, p: Uuid, runId: Uuid, model: string, max: int, ttl: int, now: int,
                            q: Uuid)
    ensures var (s', r) := Reserve(k, s, p, runId, model, max, ttl, now);
            && OpenTotal(s'.rows, q) == OpenTotal(s.rows, q) + (if r.Ok? && q == p then max else 0)
            && SettledTotal(s'.rows, q) == SettledTotal(s.rows, q) && s'.charges == s.charges
  {
    hide Sum, RollPeriods, RowChecks, AccountChecks;
    SumAppend(OpenWeight(q), s.rows, NewRow(p, runId, model, max, ttl, now));
    SumAppend(SettledWeight(q), s.rows, NewRow(p, runId, model, max, ttl, now));
  }

  /** A window never moves back and never overlaps its predecessor; a month rolls over only together with the day. */
  ghost predicate WindowsAdvance(a: Account, b: Account) {
    && ((b.dayStart == a.dayStart && b.dayEnd == a.dayEnd) || b.dayStart >= a.dayEnd)
    && ((b.monthStart == a.monthStart && b.monthEnd == a.monthEnd) || b.monthStart >= a.monthEnd)
    && (b.monthStart != a.monthStart ==> b.dayStart >= a.dayEnd)
    && a.dayStart <= b.dayStart && a.dayEnd <= b.dayEnd && a.monthStart <= b.monthStart && a.monthEnd <= b.monthEnd
    && b.dayEnd <= b.monthEnd
  }

  lemma RollAdvances(k: Calendar, a: Account, now: int)
    requires ValidCalendar(k) && WindowsOk(k, a)
    ensures WindowsAdvance(a, RollPeriods(k, a, now))
  {
    WindowsRoll(k, a, now);
  }

  lemma AdvanceTransitive(a: Account, b: Account, c: Account)
    requires a.dayStart < a.dayEnd && b.dayStart < b.dayEnd && a.monthStart < a.monthEnd && b.monthStart < b.monthEnd
    requires WindowsAdvance(a, b) && WindowsAdvance(b, c)
    ensures WindowsAdvance(a, c)
  {
  }

  /** A reservation stays as it was, or leaves the reserved state once, keeping its owner and amount. */
  predicate RowAdvance(r: Reservation, r': Reservation) {
    r' == r
    || (r.state.Reserved? && (r'.state.Settled? || r'.state.Expired?)
        && r' == r.(state := r'.state, settledActual := r'.settledActual, settledAt := r'.settledAt))
  }

  ghost predicate TablesAdvance(s: Tables, s': Tables) {
    && (forall p :: p in s.accounts ==> p in s'.accounts && WindowsAdvance(s.accounts[p], s'.accounts[p]))
    && |s.rows| <= |s'.rows|
    && (forall i :: 0 <= i < |s.rows| ==> RowAdvance(s.rows[i], s'.rows[i]))
    && |s.charges| <= |s'.charges| && s'.charges[..|s.charges|] == s.charges
  }

  lemma InvWindows(k: Calendar, s: Tables, p: Uuid)
    requires Inv(k, s) && p in s.accounts
    ensures WindowsOk(k, s.accounts[p])
  {
    assert AccountOk(k, s.accounts[p], p, s.rows, s.charges);
  }

  lemma TablesAdvanceTransitive(k: Calendar, s: Tables, t: Tables, u: Tables)
    requires Inv(k, s) && Inv(k, t) && TablesAdvance(s, t) && TablesAdvance(t, u)
    ensures TablesAdvance(s, u)
  {
    forall p | p in s.accounts ensures p in u.accounts && WindowsAdvance(s.accounts[p], u.accounts[p]) {
      InvWindows(k, s, p);
      InvWindows(k, t, p);
      AdvanceTransitive(s.accounts[p], t.accounts[p], u.accounts[p]);
    }
    assert u.charges[..|s.charges|] == u.charges[..|t.charges|][..|s.charges|];
    forall i | 0 <= i < |s.rows| ensures RowAdvance(s.rows[i], u.rows[i]) {
      assert RowAdvance(s.rows[i], t.rows[i]) && RowAdvance(t.rows[i], u.rows[i]);
    }
  }

  lemma TablesAdvanceReflexive(k: Calendar, s: Tables)
    requires Inv(k, s)
    ensures TablesAdvance(s, s)
  {
    forall p | p in s.accounts ensures WindowsAdvance(s.accounts[p], s.accounts[p]) { InvWindows(k, s, p); }
  }

  lemma ExpireRowAdvances(k: Calendar, s: Tables, i: nat, now: int)
    requires ValidCalendar(k) && Inv(k, s) && i < |s.rows| && s.rows[i].state.Reserved?
    ensures TablesAdvance(s, ExpireRow(k, s, i, now))
  {
    TablesAdvanceReflexive(k, s);
    var p := s.rows[i].principal;
    InvWindows(k, s, p);
    RollAdvances(k, s.accounts[p], now);
  }

  lemma {:induction false} ExpireAdvances(k: Calendar, s: Tables, order: seq<nat>, now: int)
    requires ValidCalendar(k) && Inv(k, s) && QueryResult(s, order, now)
    ensures TablesAdvance(s, ExpireEach(k, s, order, now))
  {
    hide Inv, ValidCalendar, ExpireRow, TablesAdvance, Member;
    if order == [] {
      TablesAdvanceReflexive(k, s);
    } else {
      var n := |order| - 1;
      QueryPrefix(s, order, now);
      ExpireAdvances(k, s, order[..n], now);
      ExpireEachKeepsInv(k, s, order[..n], now);
      ExpireEachRows(k, s, order[..n], now);
      var t := ExpireEach(k, s, order[..n], now);
      ExpireRowAdvances(k, t, order[n], now);
      TablesAdvanceTransitive(k, s, t, ExpireRow(k, t, order[n], now));
    }
  }

  lemma ApplyAdvances(k: Calendar, s: Tables, c: Call)
    requires ValidCalendar(k) && Inv(k, s)
    ensures TablesAdvance(s, Apply(k, s, c))
  {
    hide AccountOk, WindowsOk, RollPeriods, ExpireEach, BookedOnce, QueryResult;
    TablesAdvanceReflexive(k, s);
    match c
    case CallReserve(p, _, _, _, _, now) =>
      if p in s.accounts { InvWindows(k, s, p); RollAdvances(k, s.accounts[p], now); }
    case CallSettle(id, _, now) =>
      if id < |s.rows| {
        var p := s.rows[id].principal;
        InvWindows(k, s, p);
        RollAdvances(k, s.accounts[p], now);
      }
    case CallExpire(order, now) => if QueryResult(s, order, now) { ExpireAdvances(k, s, order, now); }
    case CallSetBudget(_, _, _, _) =>
    case CallSetActive(_, _) =>
  }

  /**
   From any point of any run to any later point, whatever timestamps the calls carry: windows only move forward and the
   month only with the day, every reservation leaves the reserved state at most once, and no settlement is rewritten.
   */
  lemma {:induction false} RunsOnlyAdvance(k: Calendar, calls: seq<Call>, more: seq<Call>)
    requires ValidCalendar(k)
    ensures TablesAdvance(After(k, calls), After(k, calls + more))
  {
    InvAlways(k, calls);
    if more == [] {
      assert calls + more == calls;
      TablesAdvanceReflexive(k, After(k, calls));
    } else {
      var n := |more| - 1;
      RunsOnlyAdvance(k, calls, more[..n]);
      InvAlways(k, calls + more[..n]);
      assert (calls + more)[..|calls + more| - 1] == calls + more[..n];
      ApplyAdvances(k, After(k, calls + more[..n]), more[n]);
      TablesAdvanceTransitive(k, After(k, calls), After(k, calls + more[..n]), After(k, calls + more));
    }
  }
}
