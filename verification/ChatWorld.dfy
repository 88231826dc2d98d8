/** Any number of chat requests sharing one budget ledger, with expiry and administration running beside them. */
module ChatWorld {
  import opened Common
  import opened Ledger
  import opened LedgerInvariants
  import opened Chat

  /** `owner[id]` is the request that took hold `id`. */
  datatype World = World(tables: Tables, requests: seq<Request>, owner: seq<nat>)

  const QUIET := World(EMPTY, [], [])

  datatype Step =
    | Arrive
    | Proceed(i: nat, e: Event)
    | Outside(c: Call)

  function Move(k: Calendar, w: World, s: Step): World {
    match s
    case Arrive => w.(requests := w.requests + [Request(Received, [])])
    case Outside(c) => if c.CallReserve? then w else w.(tables := Apply(k, w.tables, c))
    case Proceed(i, e) =>
      if i >= |w.requests| then w
      else
        var (t, r) := StepRequest(k, w.tables, w.requests[i], e);
        World(t, w.requests[i := r], if |t.rows| > |w.tables.rows| then w.owner + [i] else w.owner)
  }

  function Unfold(k: Calendar, steps: seq<Step>): World {
    if steps == [] then QUIET else Move(k, Unfold(k, steps[..|steps| - 1]), steps[|steps| - 1])
  }

  function HoldOf(r: Request): Option<(nat, int)> { Summarise(r.trace).hold }

  predicate SettleFailed(r: Request) { Summarise(r.trace).settles == 1 && Summarise(r.trace).settled.None? }

  predicate Untouched(r: Request) { Summarise(r.trace).settles == 0 }

  /** Requests and ledger rows name each other. */
  predicate Matched(w: World) {
    && |w.owner| == |w.tables.rows|
    && (forall id :: 0 <= id < |w.owner| ==>
        w.owner[id] < |w.requests| && HoldOf(w.requests[w.owner[id]]) == Some((id, w.tables.rows[id].max)))
    && (forall i :: 0 <= i < |w.requests| && HoldOf(w.requests[i]).Some? ==>
          HoldOf(w.requests[i]).value.0 < |w.owner| && w.owner[HoldOf(w.requests[i]).value.0] == i)
  }

  predicate OpenHoldsAccounted(w: World)
    requires Matched(w)
  {
    forall id :: 0 <= id < |w.owner| && w.tables.rows[id].state.Reserved? ==>
      Untouched(w.requests[w.owner[id]]) || SettleFailed(w.requests[w.owner[id]])
  }

  ghost predicate WorldOk(k: Calendar, w: World) {
    && Inv(k, w.tables)
    && (forall i :: 0 <= i < |w.requests| ==> RequestOk(w.requests[i]))
    && Matched(w)
    && OpenHoldsAccounted(w)
  }

  // ---------- each step ----------

  lemma OutsideKeepsWorld(k: Calendar, w: World, c: Call)
    requires ValidCalendar(k) && WorldOk(k, w) && !c.CallReserve?
    ensures WorldOk(k, Move(k, w, Outside(c)))
  {
    hide Inv, Apply, RequestOk, Summarise, ValidCalendar, RowAdvance;
    ApplyKeepsInv(k, w.tables, c);
    ApplyAdvances(k, w.tables, c);
    var t := Apply(k, w.tables, c);
    OutsideAddsNoRow(k, w.tables, c);
    forall id | 0 <= id < |t.rows|
      ensures t.rows[id].max == w.tables.rows[id].max
              && (t.rows[id].state.Reserved? ==> w.tables.rows[id].state.Reserved?)
    {
      RowsKeepAmount(w.tables.rows[id], t.rows[id]);
    }
  }

  lemma OutsideAddsNoRow(k: Calendar, t: Tables, c: Call)
    requires !c.CallReserve?
    ensures |Apply(k, t, c).rows| == |t.rows|
  {
    hide ExpireEach, QueryResult, RollPeriods, RowChecks, AccountChecks;
  }

  lemma RowsKeepAmount(r: Reservation, r': Reservation)
    requires RowAdvance(r, r')
    ensures r'.max == r.max && (r'.state.Reserved? ==> r.state.Reserved?)
  {
  }

  /** A request that keeps its hold, on rows that at most close. */
  lemma RequestMoved(k: Calendar, w: World, w': World, i: nat)
    requires WorldOk(k, w) && Inv(k, w'.tables) && i < |w.requests| == |w'.requests|
    requires w'.requests == w.requests[i := w'.requests[i]] && w'.owner == w.owner
             && |w'.tables.rows| == |w.tables.rows|
    requires RequestOk(w'.requests[i]) && HoldOf(w'.requests[i]) == HoldOf(w.requests[i])
    requires forall id :: 0 <= id < |w.owner| ==>
               w'.tables.rows[id].max == w.tables.rows[id].max
               && (w'.tables.rows[id].state.Reserved? ==>
                     w.tables.rows[id].state.Reserved? && (w.owner[id] == i ==>
                                                           Untouched(w'.requests[i])
                                                           || SettleFailed(w'.requests[i])))
    ensures WorldOk(k, w')
  {
    hide Inv, RequestOk;
  }

  /** A request that has just taken a new hold. */
  lemma RowAdded(k: Calendar, w: World, w': World, i: nat, row: Reservation)
    requires WorldOk(k, w) && Inv(k, w'.tables) && i < |w.requests| == |w'.requests|
    requires w'.requests == w.requests[i := w'.requests[i]] && w'.owner == w.owner + [i]
             && w'.tables.rows == w.tables.rows + [row]
    requires RequestOk(w'.requests[i]) && HoldOf(w.requests[i]).None?
    requires HoldOf(w'.requests[i]) == Some((|w.owner|, row.max)) && Untouched(w'.requests[i])
    ensures WorldOk(k, w')
  {
    hide Inv, RequestOk;
  }

  lemma SettledRowCloses(k: Calendar, t: Tables, id: nat, actual: Option<int>, now: int)
    requires id < |t.rows|
    ensures var (t', r) := Settle(k, t, id, actual, now);
            && |t'.rows| == |t.rows|
            && (r.Err? ==> t' == t)
            && (r.Ok? ==> t'.rows[id].state.Settled? && t'.rows[id].max == t.rows[id].max)
            && (forall j :: 0 <= j < |t.rows| && j != id ==> t'.rows[j] == t.rows[j])
  {
  }

  lemma RequestHasNoHold(r: Request)
    requires RequestOk(r) && r.pc.Holding?
    ensures HoldOf(r).None?
  {
  }

  /** Taking a hold appends the hold's row, or leaves the ledger alone. */
  lemma TakeHoldFacts(k: Calendar, t: Tables, r: Request, reached: bool, now: int)
    requires ValidCalendar(k) && Inv(k, t) && RequestOk(r) && r.pc.Holding?
    ensures var (t', r') := Reserving(k, t, r, reached, now);
            && Inv(k, t') && RequestOk(r')
            && (r'.pc.Done? || r'.pc.Denying? || r'.pc.Starting?)
            && (!r'.pc.Starting? ==> t' == t && HoldOf(r').None?)
            && (r'.pc.Starting? ==> |t'.rows| == |t.rows| + 1 && t'.rows[..|t.rows|] == t.rows
                                    && r'.pc.id == |t.rows| && t'.rows[|t.rows|].max == r'.pc.max
                                       && t'.rows[|t.rows|].state.Reserved?)
  {
    hide Inv, ValidCalendar, RollPeriods, RowChecks, AccountChecks, Blank, RequestOk;
    RequestHasNoHold(r);
    var o := r.pc.order;
    ReservingKeepsOrder(k, t, r, reached, now);
    ReserveKeepsInv(k, t, o.principal, o.runId, o.model, o.max, o.ttlSeconds, now);
  }

  /** After the settle call the hold is closed, or the call counts as failed. */
  lemma SettleHoldFacts(k: Calendar, t: Tables, r: Request, reached: bool, now: int)
    requires ValidCalendar(k) && Inv(k, t) && RequestOk(r) && r.pc.Settling?
    requires r.pc.id < |t.rows| && t.rows[r.pc.id].max == r.pc.max
    ensures var (t', r') := SettlingNow(k, t, r, reached, now);
            && Inv(k, t') && RequestOk(r')
            && (r'.pc.Done? || r'.pc.Failing? || r'.pc.Completing?)
            && |t'.rows| == |t.rows| && t'.rows[..r.pc.id] == t.rows[..r.pc.id]
            && (SettleFailed(r') || t'.rows[r.pc.id].state.Settled?)
  {
    hide Inv, ValidCalendar, Settle, RequestOk, Summarise;
    SettlingKeepsOrder(k, t, r, reached, now);
    SettleKeepsInv(k, t, r.pc.id, Some(r.pc.actual), now);
    SettledRowCloses(k, t, r.pc.id, Some(r.pc.actual), now);
  }

  lemma HoldTakenKeepsWorld(k: Calendar, w: World, i: nat, reached: bool, now: int)
    requires ValidCalendar(k) && WorldOk(k, w) && i < |w.requests| && w.requests[i].pc.Holding?
    ensures WorldOk(k, Move(k, w, Proceed(i, LedgerEnds(reached, now))))
  {
    hide Inv, ValidCalendar, RequestOk, Reserving, Summarise, Matched, OpenHoldsAccounted;
    TakeHoldFacts(k, w.tables, w.requests[i], reached, now);
    var (t', r') := Reserving(k, w.tables, w.requests[i], reached, now);
    ReservingKeepsOrder(k, w.tables, w.requests[i], reached, now);
    HoldTaken(k, w, i, t', r');
  }

  lemma HoldTaken(k: Calendar, w: World, i: nat, t': Tables, r': Request)
    requires WorldOk(k, w) && i < |w.requests| && w.requests[i].pc.Holding? && Inv(k, t') && RequestOk(r')
    requires !r'.pc.Starting? ==> t' == w.tables && HoldOf(r').None?
    requires r'.pc.Starting? ==> |t'.rows| == |w.tables.rows| + 1 && t'.rows[..|w.tables.rows|] == w.tables.rows
                                 && r'.pc.id == |w.tables.rows| && t'.rows[|w.tables.rows|].max == r'.pc.max
    ensures WorldOk(k, World(t', w.requests[i := r'], if |t'.rows| > |w.tables.rows| then w.owner + [i] else w.owner))
  {
    var w' := World(t', w.requests[i := r'], if |t'.rows| > |w.tables.rows| then w.owner + [i] else w.owner);
    hide Inv, Matched, OpenHoldsAccounted, Orderly;
    assert RequestOk(w.requests[i]);
    if r'.pc.Starting? {
      assert t'.rows == w.tables.rows + [t'.rows[|w.tables.rows|]];
      RowAdded(k, w, w', i, t'.rows[|w.tables.rows|]);
    } else {
      RequestMoved(k, w, w', i);
    }
  }

  lemma SettlingHold(r: Request)
    requires RequestOk(r) && r.pc.Settling?
    ensures HoldOf(r) == Some((r.pc.id, r.pc.max))
  {
  }

  lemma HoldSettledKeepsWorld(k: Calendar, w: World, i: nat, reached: bool, now: int)
    requires ValidCalendar(k) && WorldOk(k, w) && i < |w.requests| && w.requests[i].pc.Settling?
    ensures WorldOk(k, Move(k, w, Proceed(i, LedgerEnds(reached, now))))
  {
    hide Inv, Settle, ValidCalendar, RequestOk, Summarise;
    var r := w.requests[i];
    var id := r.pc.id;
    SettlingHold(r);
    assert w.owner[id] == i && w.tables.rows[id].max == r.pc.max;
    SettlingKeepsOrder(k, w.tables, r, reached, now);
    SettleHoldFacts(k, w.tables, r, reached, now);
    SettledRowCloses(k, w.tables, id, Some(r.pc.actual), now);
    RequestMoved(k, w, Move(k, w, Proceed(i, LedgerEnds(reached, now))), i);
  }

  lemma MoveKeepsWorld(k: Calendar, w: World, s: Step)
    requires ValidCalendar(k) && WorldOk(k, w)
    ensures WorldOk(k, Move(k, w, s))
  {
    match s
    case Arrive =>
      assert Summarise([]) == NOTHING;
    case Outside(c) => if !c.CallReserve? { OutsideKeepsWorld(k, w, c); }
    case Proceed(i, e) =>
      if i < |w.requests| {
        if e.LedgerEnds? && w.requests[i].pc.Holding? { HoldTakenKeepsWorld(k, w, i, e.reached, e.now); }
        else if e.LedgerEnds? && w.requests[i].pc.Settling? { HoldSettledKeepsWorld(k, w, i, e.reached, e.now); }
        else { QuietKeepsWorld(k, w, i, e); }
      }
  }

  lemma QuietKeepsWorld(k: Calendar, w: World, i: nat, e: Event)
    requires WorldOk(k, w) && i < |w.requests|
    requires !(e.LedgerEnds? && (w.requests[i].pc.Holding? || w.requests[i].pc.Settling?))
    ensures WorldOk(k, Move(k, w, Proceed(i, e)))
  {
    AdvanceKeepsOrder(w.requests[i], e);
    RequestMoved(k, w, Move(k, w, Proceed(i, e)), i);
  }

  // ---------- every interleaving ----------

  lemma {:induction false} WorldOkAlways(k: Calendar, steps: seq<Step>)
    requires ValidCalendar(k)
    ensures WorldOk(k, Unfold(k, steps))
  {
    if steps == [] {
      InvAlways(k, []);
    } else {
      WorldOkAlways(k, steps[..|steps| - 1]);
      MoveKeepsWorld(k, Unfold(k, steps[..|steps| - 1]), steps[|steps| - 1]);
    }
  }

  /**
   Every request, at every moment, has done only what its past permitted; a finished one has settled its hold exactly
   once.
   */
  lemma EveryRequestIsOrderly(k: Calendar, steps: seq<Step>, i: nat)
    requires ValidCalendar(k) && i < |Unfold(k, steps).requests|
    ensures var r := Unfold(k, steps).requests[i]; var s := Summarise(r.trace);
            && Orderly(r.trace)
            && s.backendCalls <= 1
            && LegalEvents(s.events)
            && (r.pc.Done? ==> s.reply == Some(r.pc.status) && s.settles == (if s.hold.Some? then 1 else 0))
  {
    WorldOkAlways(k, steps);
    var r := Unfold(k, steps).requests[i];
    assert RequestOk(r);
    RequestSummary(r);
  }

  lemma RequestSummary(r: Request)
    requires RequestOk(r)
    ensures var s := Summarise(r.trace);
            && Orderly(r.trace) && s.backendCalls <= 1 && LegalEvents(s.events)
            && (r.pc.Done? ==> s.reply == Some(r.pc.status) && s.settles == (if s.hold.Some? then 1 else 0))
  {
    OrderlySummary(r.trace);
  }

  lemma PermittedEffectIsLegal(s: Summary, e: Effect)
    requires MayFollow(s, e) && s.backendCalls <= 1 && LegalEvents(s.events)
    ensures Observe(s, e).backendCalls <= 1 && LegalEvents(Observe(s, e).events)
  {
  }

  lemma {:induction false} OrderlySummary(trace: seq<Effect>)
    requires Orderly(trace)
    ensures var s := Summarise(trace); s.backendCalls <= 1 && LegalEvents(s.events)
  {
    hide MayFollow, Observe;
    if trace != [] {
      var past := trace[..|trace| - 1];
      assert forall i :: 0 <= i < |past| ==> past[..i] == trace[..i];
      OrderlySummary(past);
      PermittedEffectIsLegal(Summarise(past), trace[|trace| - 1]);
    }
  }

  /** Every open hold belongs to a request that is still in flight, or to one whose single settle call failed. */
  lemma OpenHoldHasOwner(k: Calendar, steps: seq<Step>, id: nat)
    requires ValidCalendar(k) && id < |Unfold(k, steps).tables.rows| && Unfold(k, steps).tables.rows[id].state.Reserved?
    ensures var w := Unfold(k, steps);
            exists i :: 0 <= i < |w.requests| && HoldOf(w.requests[i]) == Some((id, w.tables.rows[id].max))
                        && (!w.requests[i].pc.Done? || SettleFailed(w.requests[i]))
  {
    WorldOkAlways(k, steps);
    var w := Unfold(k, steps);
    var i := w.owner[id];
    assert RequestOk(w.requests[i]);
  }

  /** Once all requests have ended and no settle call has failed, no account has anything reserved. */
  lemma NothingStaysReserved(k: Calendar, steps: seq<Step>, p: Uuid)
    requires ValidCalendar(k) && p in Unfold(k, steps).tables.accounts
    requires var w := Unfold(k, steps); forall i :: 0 <= i < |w.requests| ==>
             w.requests[i].pc.Done? && !SettleFailed(w.requests[i])
    ensures var a := Unfold(k, steps).tables.accounts[p]; a.dayReserved == 0 && a.monthReserved == 0
  {
    WorldOkAlways(k, steps);
    var w := Unfold(k, steps);
    forall id | 0 <= id < |w.tables.rows| ensures !w.tables.rows[id].state.Reserved? {
      assert RequestOk(w.requests[w.owner[id]]);
    }
    SumZero(OpenWeight(p), w.tables.rows);
    assert AccountOk(k, w.tables.accounts[p], p, w.tables.rows, w.tables.charges);
  }
}
