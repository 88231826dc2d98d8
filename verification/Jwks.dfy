/**
 The signing-key cache. `PublicKey` is a retry loop whose shared state is touched only in three critical sections: the
 decision at the top of the loop, the end of a force refresh and the end of a TTL refresh. Module Jwks gives these
 sections as functions and as methods that update the cache fields in place; module JwksProtocol runs any number of
 goroutines over them.
 */
module Jwks {
  import opened Common

  type Kid = nat
  type Key = nat
  type KeySet = map<Kid, Key>

  /** The fields under the mutex, plus the wait channels made so far and those already closed. */
  datatype Cache = Cache(
    keys: KeySet, fetchedAt: int, hasCache: bool, generation: nat,
    forceClaimedGen: nat, forceWait: Option<nat>, ttlWait: Option<nat>,
    channels: nat, closed: set<nat>, closedTwice: bool)

  const EMPTY_CACHE := Cache(map[], 0, false, 0, 0, None, None, 0, {}, false)

  datatype Outcome =
    | Found(key: Key)
    | Refuse
    | WaitOn(ch: nat)
    | LeadForce(gen: nat, fetchedAt: int, ch: nat)
    | LeadTtl(gen: nat, ch: nat)

  predicate Fresh(c: Cache, ttl: int, now: int) { c.hasCache && now - c.fetchedAt < ttl }

  /** The critical section at the top of the loop. */
  function Enter(c: Cache, ttl: int, kid: Kid, now: int): (Cache, Outcome) {
    if Fresh(c, ttl, now) then
      if kid in c.keys then (c, Found(c.keys[kid]))
      else if c.forceClaimedGen == c.generation then
        (c, if c.forceWait.Some? then WaitOn(c.forceWait.value) else Refuse)
      else
        (c.(forceWait := Some(c.channels), forceClaimedGen := c.generation, channels := c.channels + 1),
         LeadForce(c.generation, c.fetchedAt, c.channels))
    else if c.ttlWait.Some? then (c, WaitOn(c.ttlWait.value))
    else (c.(ttlWait := Some(c.channels), channels := c.channels + 1), LeadTtl(c.generation, c.channels))
  }

  function Close(c: Cache, ch: nat): Cache {
    c.(closed := c.closed + {ch}, closedTwice := c.closedTwice || ch in c.closed)
  }

  /** The critical section after a force fetch; `None` is a failed fetch. */
  function FinishForce(c: Cache, gen: nat, fetchedAt: int, ch: nat, fetched: Option<KeySet>): Cache {
    var c1 := Close(c, ch).(forceWait := None);
    if fetched.Some? && c1.generation == gen && c1.fetchedAt == fetchedAt then c1.(keys := fetched.value) else c1
  }

  /** The critical section after a TTL fetch. */
  function FinishTtl(c: Cache, gen: nat, ch: nat, fetched: Option<KeySet>, kid: Kid, now: int): Cache {
    var c1 := Close(c, ch).(ttlWait := None);
    if fetched.Some? && c1.generation == gen then
      c1.(keys := fetched.value, fetchedAt := now, hasCache := true, generation := gen + 1,
          forceClaimedGen := if kid in fetched.value then c1.forceClaimedGen else gen + 1)
    else c1
  }

  class JWKSCache {
    const ttl: int
    var keys: KeySet
    var fetchedAt: int
    var hasCache: bool
    var generation: nat
    var forceClaimedGen: nat
    var forceWait: Option<nat>
    var ttlWait: Option<nat>
    var channels: nat
    var closed: set<nat>
    ghost var closedTwice: bool

    ghost function Snapshot(): Cache
      reads this
    {
      Cache(keys, fetchedAt, hasCache, generation, forceClaimedGen, forceWait, ttlWait, channels, closed, closedTwice)
    }

    constructor (ttl: int)
      ensures Snapshot() == EMPTY_CACHE && this.ttl == ttl
    {
      this.ttl := ttl;
      keys, fetchedAt, hasCache, generation, forceClaimedGen := map[], 0, false, 0, 0;
      forceWait, ttlWait, channels, closed, closedTwice := None, None, 0, {}, false;
    }

    method Decide(kid: Kid, now: int) returns (r: Outcome)
      modifies this
      ensures (Snapshot(), r) == Enter(old(Snapshot()), ttl, kid, now)
    {
      var isFresh := hasCache && now - fetchedAt < ttl;
      if isFresh {
        if kid in keys { return Found(keys[kid]); }
        if forceClaimedGen == generation {
          if forceWait.Some? { return WaitOn(forceWait.value); }
          return Refuse;
        }
        var wait := channels;
        channels := channels + 1;
        forceWait := Some(wait);
        forceClaimedGen := generation;
        return LeadForce(generation, fetchedAt, wait);
      }
      if ttlWait.Some? { return WaitOn(ttlWait.value); }
      var wait := channels;
      channels := channels + 1;
      ttlWait := Some(wait);
      r := LeadTtl(generation, wait);
    }

    method EndForce(claimedGen: nat, claimedFetchedAt: int, wait: nat, kid: Kid, fetched: Option<KeySet>)
        returns (key: Option<Key>)
      modifies this
      ensures Snapshot() == FinishForce(old(Snapshot()), claimedGen, claimedFetchedAt, wait, fetched)
      ensures key == if fetched.Some? && kid in keys then Some(keys[kid]) else None
    {
      closedTwice := closedTwice || wait in closed;
      closed := closed + {wait};
      forceWait := None;
      if fetched.None? { return None; }
      if generation == claimedGen && fetchedAt == claimedFetchedAt { keys := fetched.value; }
      key := if kid in keys then Some(keys[kid]) else None;
    }

    method EndTtl(priorGen: nat, wait: nat, kid: Kid, fetched: Option<KeySet>, now: int) returns (key: Option<Key>)
      modifies this
      ensures Snapshot() == FinishTtl(old(Snapshot()), priorGen, wait, fetched, kid, now)
      ensures key == if fetched.Some? && kid in keys then Some(keys[kid]) else None
    {
      closedTwice := closedTwice || wait in closed;
      closed := closed + {wait};
      ttlWait := None;
      if fetched.None? { return None; }
      if generation == priorGen {
        keys := fetched.value;
        fetchedAt := now;
        hasCache := true;
        generation := priorGen + 1;
        if kid !in keys { forceClaimedGen := generation; }
      }
      key := if kid in keys then Some(keys[kid]) else None;
    }
  }
}

module JwksProtocol {
  import opened Common
  import opened Jwks

  datatype Pc =
    | Entering
    | Waiting(ch: nat)
    | ForceFetching(gen: nat, fetchedAt: int, ch: nat, claimedAt: nat)
    | TtlFetching(gen: nat, ch: nat)
    | Returned(key: Key, gen: nat, readAt: Option<int>, installedAt: nat)
    | Refused
    | Unavailable

  /** One call of `PublicKey`, begun at tick `begun`. */
  datatype Goroutine = Goroutine(kid: Kid, begun: nat, pc: Pc)

  /**
   What an observer records: the set with which each generation was opened and the clock reading at that moment, the
   generations opened by a fetch that lacked its leader's key id, the set a force fetch installed in a generation, the
   generations in which a force fetch was started, who made each channel, and when (in steps) the current set was
   installed and a force fetch last ended.
   */
  datatype History = History(
    openingSets: map<nat, KeySet>, openedAt: map<nat, int>, missed: set<nat>, forced: map<nat, KeySet>,
    forceStarts: seq<nat>,
    owner: seq<nat>, installedAt: nat, forceEndedAt: nat)

  datatype System = System(cache: Cache, gs: seq<Goroutine>, tick: nat, h: History)

  const START := System(EMPTY_CACHE, [], 1, History(map[], map[], {}, map[], [], [], 0, 0))

  datatype Step =
    | Call(kid: Kid)
    | Top(g: nat, now: int)
    | Wake(g: nat)
    | Cancel(g: nat)
    | FetchDone(g: nat, fetched: Option<KeySet>, now: int)

  predicate Enabled(s: System, e: Step) {
    match e
    case Call(_) => true
    case Top(g, _) => g < |s.gs| && s.gs[g].pc.Entering?
    case Wake(g) => g < |s.gs| && s.gs[g].pc.Waiting? && s.gs[g].pc.ch in s.cache.closed
    case Cancel(g) => g < |s.gs| && s.gs[g].pc.Waiting?
    case FetchDone(g, _, _) => g < |s.gs| && (s.gs[g].pc.ForceFetching? || s.gs[g].pc.TtlFetching?)
  }

  function At(s: System, g: nat, pc: Pc): System
    requires g < |s.gs|
  {
    s.(gs := s.gs[g := s.gs[g].(pc := pc)])
  }

  function TopStep(ttl: int, s: System, g: nat, now: int): System
    requires g < |s.gs|
  {
    var (c, r) := Enter(s.cache, ttl, s.gs[g].kid, now);
    var s1 := s.(cache := c);
    match r
    case Found(key) => At(s1, g, Returned(key, s.cache.generation, Some(now), s.h.installedAt))
    case Refuse => At(s1, g, Refused)
    case WaitOn(ch) => At(s1, g, Waiting(ch))
    case LeadForce(gen, fetchedAt, ch) =>
      At(s1, g, ForceFetching(gen, fetchedAt, ch, s.tick)).(h := s.h.(forceStarts := s.h.forceStarts + [gen],
                                                                      owner := s.h.owner + [g]))
    case LeadTtl(gen, ch) =>
      At(s1, g, TtlFetching(gen, ch)).(h := s.h.(owner := s.h.owner + [g]))
  }

  /** How a leader leaves the loop once its fetch has ended: only a successful fetch leads to a lookup. */
  function Reply(c: Cache, kid: Kid, fetched: Option<KeySet>, installedAt: nat): Pc {
    if fetched.None? then Unavailable
    else if kid in c.keys then Returned(c.keys[kid], c.generation, None, installedAt)
    else Refused
  }

  function ForceDone(s: System, g: nat, fetched: Option<KeySet>): System
    requires g < |s.gs| && s.gs[g].pc.ForceFetching?
  {
    var pc := s.gs[g].pc;
    var c := FinishForce(s.cache, pc.gen, pc.fetchedAt, pc.ch, fetched);
    var installs := fetched.Some? && s.cache.generation == pc.gen && s.cache.fetchedAt == pc.fetchedAt;
    var h := s.h.(forceEndedAt := s.tick,
                  forced := if installs then s.h.forced[pc.gen := fetched.value] else s.h.forced,
                  installedAt := if installs then s.tick else s.h.installedAt);
    At(s, g, Reply(c, s.gs[g].kid, fetched, h.installedAt)).(cache := c, h := h)
  }

  function TtlDone(s: System, g: nat, fetched: Option<KeySet>, now: int): System
    requires g < |s.gs| && s.gs[g].pc.TtlFetching?
  {
    var pc := s.gs[g].pc;
    var c := FinishTtl(s.cache, pc.gen, pc.ch, fetched, s.gs[g].kid, now);
    var installs := fetched.Some? && s.cache.generation == pc.gen;
    var h := s.h.(openingSets := if installs then s.h.openingSets[c.generation := fetched.value] else s.h.openingSets,
                  openedAt := if installs then s.h.openedAt[s.cache.generation + 1 := now] else s.h.openedAt,
                  missed := if installs && s.gs[g].kid !in fetched.value then s.h.missed + {s.cache.generation + 1}
                            else s.h.missed,
                  installedAt := if installs then s.tick else s.h.installedAt);
    At(s, g, Reply(c, s.gs[g].kid, fetched, h.installedAt)).(cache := c, h := h)
  }

  /** One step of the system; a step that is not enabled changes nothing but the tick. */
  function Apply(ttl: int, s: System, e: Step): System {
    var s' :=
      if !Enabled(s, e) then s
      else
        match e
        case Call(kid) => s.(gs := s.gs + [Goroutine(kid, s.tick, Entering)])
        case Top(g, now) => TopStep(ttl, s, g, now)
        case Wake(g) => At(s, g, Entering)
        case Cancel(g) => At(s, g, Unavailable)
        case FetchDone(g, fetched, now) =>
          if s.gs[g].pc.ForceFetching? then ForceDone(s, g, fetched) else TtlDone(s, g, fetched, now);
    s'.(tick := s.tick + 1)
  }

  function After(ttl: int, steps: seq<Step>): System {
    if steps == [] then START else Apply(ttl, After(ttl, steps[..|steps| - 1]), steps[|steps| - 1])
  }

  // ---------- the invariant ----------

  predicate Finished(pc: Pc) { pc.Returned? || pc.Refused? || pc.Unavailable? }

  predicate FetchingOn(pc: Pc, ch: nat) { (pc.ForceFetching? || pc.TtlFetching?) && pc.ch == ch }

  /** Every channel is closed or belongs to a goroutine that is still fetching, and to no other. */
  predicate ChannelsOk(s: System) {
    && |s.h.owner| == s.cache.channels
    && !s.cache.closedTwice
    && (forall ch :: ch in s.cache.closed ==> ch < s.cache.channels)
    && (forall ch :: 0 <= ch < s.cache.channels ==>
          s.h.owner[ch] < |s.gs| && (ch in s.cache.closed || FetchingOn(s.gs[s.h.owner[ch]].pc, ch)))
    && (forall g :: 0 <= g < |s.gs| && (s.gs[g].pc.ForceFetching? || s.gs[g].pc.TtlFetching?) ==>
          s.gs[g].pc.ch < s.cache.channels && s.gs[g].pc.ch !in s.cache.closed && s.h.owner[s.gs[g].pc.ch] == g)
    && (forall g :: 0 <= g < |s.gs| && s.gs[g].pc.Waiting? ==> s.gs[g].pc.ch < s.cache.channels)
  }

  /** `ttlWait` names the one TTL fetch in flight; `forceWait`, when set, names a force fetch in flight. */
  predicate LeadersOk(s: System) {
    && (s.cache.ttlWait.Some? ==>
          var ch := s.cache.ttlWait.value;
          ch < |s.h.owner| && s.h.owner[ch] < |s.gs| && s.gs[s.h.owner[ch]].pc.TtlFetching?
              && s.gs[s.h.owner[ch]].pc.ch == ch)
    && (forall g :: 0 <= g < |s.gs| && s.gs[g].pc.TtlFetching? ==>
          s.cache.ttlWait == Some(s.gs[g].pc.ch) && s.gs[g].pc.gen == s.cache.generation)
    && (s.cache.forceWait.Some? ==>
          var ch := s.cache.forceWait.value;
          ch < |s.h.owner| && s.h.owner[ch] < |s.gs| && s.gs[s.h.owner[ch]].pc.ForceFetching?
              && s.gs[s.h.owner[ch]].pc.ch == ch)
  }

  /** Force fetches started belong to distinct generations, in order, none beyond the last claim. */
  predicate StartsOk(s: System) {
    && (s.cache.hasCache <==> s.cache.generation >= 1)
    && s.cache.forceClaimedGen <= s.cache.generation
    && (forall i :: 0 <= i < |s.h.forceStarts| ==> 1 <= s.h.forceStarts[i] <= s.cache.forceClaimedGen)
    && (forall i, j :: 0 <= i < j < |s.h.forceStarts| ==> s.h.forceStarts[i] < s.h.forceStarts[j])
  }

  /** The cached set is the one that opened the generation, or that of the generation's force fetch. */
  predicate KeysOk(s: System) {
    && (s.cache.generation >= 1 ==>
          s.cache.generation in s.h.openingSets
          && s.cache.keys == if s.cache.generation in s.h.forced then s.h.forced[s.cache.generation]
             else s.h.openingSets[s.cache.generation])
    && (forall gen :: gen in s.h.openingSets ==> gen <= s.cache.generation)
    && (forall gen :: gen in s.h.forced ==> gen in s.h.forceStarts)
    && s.h.installedAt < s.tick && s.h.forceEndedAt < s.tick
  }

  predicate ForceOk(s: System, g: nat)
    requires g < |s.gs| && s.gs[g].pc.ForceFetching?
  {
    var pc := s.gs[g].pc;
    && pc.gen in s.h.forceStarts && pc.gen !in s.h.forced && pc.gen <= s.cache.generation
    && (pc.gen == s.cache.generation ==> pc.fetchedAt == s.cache.fetchedAt)
    && (pc.gen < s.cache.generation ==> s.gs[g].begun < s.h.installedAt)
    && pc.claimedAt < s.tick
    && (pc.gen == s.h.forceStarts[|s.h.forceStarts| - 1] ==>
          s.cache.forceWait == if s.h.forceEndedAt < pc.claimedAt then Some(pc.ch) else None)
  }

  /** `key` was published under `kid` in a set fetched for generation `gen`. */
  predicate Published(h: History, gen: nat, kid: Kid, key: Key) {
    || (gen in h.openingSets && kid in h.openingSets[gen] && h.openingSets[gen][kid] == key)
    || (gen in h.forced && kid in h.forced[gen] && h.forced[gen][kid] == key)
  }

  predicate CallOk(s: System, g: nat)
    requires g < |s.gs|
  {
    && s.gs[g].begun < s.tick
    && (s.gs[g].pc.ForceFetching? ==> ForceOk(s, g))
    && (s.gs[g].pc.Returned? ==>
          && (s.gs[g].pc.readAt.Some? || s.gs[g].begun < s.gs[g].pc.installedAt)
          && Published(s.h, s.gs[g].pc.gen, s.gs[g].kid, s.gs[g].pc.key))
  }

  predicate Inv(s: System) {
    && ChannelsOk(s) && LeadersOk(s) && StartsOk(s) && KeysOk(s)
    && (forall g :: 0 <= g < |s.gs| ==> CallOk(s, g))
    && (forall f, g :: 0 <= f < g < |s.gs| && s.gs[f].pc.ForceFetching? && s.gs[g].pc.ForceFetching? ==>
          s.gs[f].pc.gen != s.gs[g].pc.gen)
  }

  /** A goroutine that leads no fetch may move on without touching the cache. */
  lemma MoveKeepsInv(s: System, g: nat, pc: Pc)
    requires Inv(s) && g < |s.gs| && (s.gs[g].pc.Entering? || s.gs[g].pc.Waiting?)
    requires pc.Entering? || pc.Refused? || pc.Unavailable? || (pc.Waiting? && pc.ch < s.cache.channels)
             || (pc.Returned? && pc.readAt.Some? && Published(s.h, pc.gen, s.gs[g].kid, pc.key))
    ensures Inv(At(s, g, pc).(tick := s.tick + 1))
  {
    var s' := At(s, g, pc).(tick := s.tick + 1);
    forall f | 0 <= f < |s'.gs| ensures CallOk(s', f) {
      assert CallOk(s, f);
    }
  }

  /** Starting to lead a fetch makes a new channel that only the leader owns. */
  lemma NewChannelOk(s: System, s': System, g: nat)
    requires ChannelsOk(s) && g < |s.gs| && s.gs[g].pc.Entering?
    requires |s'.gs| == |s.gs| && s'.gs == s.gs[g := s'.gs[g]] && FetchingOn(s'.gs[g].pc, s.cache.channels)
    requires s'.cache.channels == s.cache.channels + 1 && s'.cache.closed == s.cache.closed && !s'.cache.closedTwice
    requires s'.h.owner == s.h.owner + [g]
    ensures ChannelsOk(s')
  {
  }

  lemma LeadForceKeepsInv(ttl: int, s: System, g: nat, now: int)
    requires Inv(s) && g < |s.gs| && s.gs[g].pc.Entering?
    requires Enter(s.cache, ttl, s.gs[g].kid, now).1.LeadForce?
    ensures Inv(Apply(ttl, s, Top(g, now)))
  {
    var s' := Apply(ttl, s, Top(g, now));
    NewChannelOk(s, s', g);
    forall f | 0 <= f < |s'.gs| ensures CallOk(s', f) {
      assert CallOk(s, f);
      assert s'.h.forceStarts[|s.h.forceStarts|] == s.cache.generation;
    }
    forall f | 0 <= f < |s'.gs| && f != g && s'.gs[f].pc.ForceFetching? ensures s'.gs[f].pc.gen != s'.gs[g].pc.gen {
      assert CallOk(s, f);
    }
  }

  lemma LeadTtlKeepsInv(ttl: int, s: System, g: nat, now: int)
    requires Inv(s) && g < |s.gs| && s.gs[g].pc.Entering?
    requires Enter(s.cache, ttl, s.gs[g].kid, now).1.LeadTtl?
    ensures Inv(Apply(ttl, s, Top(g, now)))
  {
    var s' := Apply(ttl, s, Top(g, now));
    NewChannelOk(s, s', g);
    forall f | 0 <= f < |s'.gs| ensures CallOk(s', f) {
      assert CallOk(s, f);
    }
  }

  lemma TopKeepsInv(ttl: int, s: System, g: nat, now: int)
    requires Inv(s) && g < |s.gs| && s.gs[g].pc.Entering?
    ensures Inv(Apply(ttl, s, Top(g, now)))
  {
    match Enter(s.cache, ttl, s.gs[g].kid, now).1
    case LeadForce(_, _, _) => LeadForceKeepsInv(ttl, s, g, now);
    case LeadTtl(_, _) => LeadTtlKeepsInv(ttl, s, g, now);
    case Found(key) => MoveKeepsInv(s, g, Returned(key, s.cache.generation, Some(now), s.h.installedAt));
    case Refuse => MoveKeepsInv(s, g, Refused);
    case WaitOn(ch) => MoveKeepsInv(s, g, Waiting(ch));
  }

  /** Ending a fetch closes the leader's own channel, for the first time. */
  lemma ClosedChannelOk(s: System, s': System, g: nat)
    requires ChannelsOk(s) && g < |s.gs| && (s.gs[g].pc.ForceFetching? || s.gs[g].pc.TtlFetching?)
    requires |s'.gs| == |s.gs| && s'.gs == s.gs[g := s'.gs[g]] && Finished(s'.gs[g].pc)
    requires s'.cache.channels == s.cache.channels && s'.h.owner == s.h.owner
    requires s'.cache.closed == s.cache.closed + {s.gs[g].pc.ch}
    requires s'.cache.closedTwice == (s.cache.closedTwice || s.gs[g].pc.ch in s.cache.closed)
    ensures ChannelsOk(s')
  {
  }

  lemma ForceDoneCallOk(s: System, g: nat, fetched: Option<KeySet>, f: nat)
    requires Inv(s) && g < |s.gs| && s.gs[g].pc.ForceFetching? && f < |s.gs|
    ensures CallOk(ForceDone(s, g, fetched).(tick := s.tick + 1), f)
  {
    assert CallOk(s, f) && CallOk(s, g);
  }

  lemma ForceDoneSharedOk(s: System, g: nat, fetched: Option<KeySet>)
    requires LeadersOk(s) && StartsOk(s) && KeysOk(s) && g < |s.gs| && s.gs[g].pc.ForceFetching? && ForceOk(s, g)
    ensures var s' := ForceDone(s, g, fetched).(tick := s.tick + 1); LeadersOk(s') && StartsOk(s') && KeysOk(s')
  {
  }

  lemma ForceDoneKeepsInv(ttl: int, s: System, g: nat, fetched: Option<KeySet>, now: int)
    requires Inv(s) && g < |s.gs| && s.gs[g].pc.ForceFetching?
    ensures Inv(Apply(ttl, s, FetchDone(g, fetched, now)))
  {
    hide ChannelsOk, LeadersOk, StartsOk, KeysOk;
    var s' := ForceDone(s, g, fetched).(tick := s.tick + 1);
    ClosedChannelOk(s, s', g);
    assert CallOk(s, g);
    ForceDoneSharedOk(s, g, fetched);
    forall f | 0 <= f < |s'.gs| ensures CallOk(s', f) { ForceDoneCallOk(s, g, fetched, f); }
  }

  lemma TtlDoneCallOk(s: System, g: nat, fetched: Option<KeySet>, now: int, f: nat)
    requires Inv(s) && g < |s.gs| && s.gs[g].pc.TtlFetching? && f < |s.gs|
    ensures CallOk(TtlDone(s, g, fetched, now).(tick := s.tick + 1), f)
  {
    assert CallOk(s, f) && CallOk(s, g);
  }

  lemma TtlDoneKeepsInv(ttl: int, s: System, g: nat, fetched: Option<KeySet>, now: int)
    requires Inv(s) && g < |s.gs| && s.gs[g].pc.TtlFetching?
    ensures Inv(Apply(ttl, s, FetchDone(g, fetched, now)))
  {
    hide ChannelsOk, CallOk;
    var s' := TtlDone(s, g, fetched, now).(tick := s.tick + 1);
    ClosedChannelOk(s, s', g);
    forall f | 0 <= f < |s'.gs| ensures CallOk(s', f) { TtlDoneCallOk(s, g, fetched, now, f); }
  }

  lemma ApplyKeepsInv(ttl: int, s: System, e: Step)
    requires Inv(s)
    ensures Inv(Apply(ttl, s, e))
  {
    if !Enabled(s, e) || e.Call? {
      IdleKeepsInv(s, Apply(ttl, s, e));
    } else {
      match e
      case Top(g, now) => TopKeepsInv(ttl, s, g, now);
      case Wake(g) => MoveKeepsInv(s, g, Entering);
      case Cancel(g) => MoveKeepsInv(s, g, Unavailable);
      case FetchDone(g, fetched, now) =>
        if s.gs[g].pc.ForceFetching? { ForceDoneKeepsInv(ttl, s, g, fetched, now); }
        else { TtlDoneKeepsInv(ttl, s, g, fetched, now); }
    }
  }

  lemma IdleKeepsInv(s: System, s': System)
    requires Inv(s) && s'.cache == s.cache && s'.h == s.h && s'.tick == s.tick + 1
    requires s'.gs == s.gs || (|s'.gs| == |s.gs| + 1 && s'.gs[..|s.gs|] == s.gs && s'.gs[|s.gs|].pc.Entering?
                               && s'.gs[|s.gs|].begun == s.tick)
    ensures Inv(s')
  {
    assert forall g :: 0 <= g < |s.gs| ==> s'.gs[g] == s.gs[g];
    forall f | 0 <= f < |s'.gs| ensures CallOk(s', f) {
      if f < |s.gs| { assert CallOk(s, f); }
    }
  }

  // ---------- every interleaving ----------

  lemma {:induction false} InvAlways(ttl: int, steps: seq<Step>)
    ensures Inv(After(ttl, steps))
  {
    if steps != [] {
      InvAlways(ttl, steps[..|steps| - 1]);
      ApplyKeepsInv(ttl, After(ttl, steps[..|steps| - 1]), steps[|steps| - 1]);
    }
  }

  /**
   The cached set is the one the TTL fetch of the current generation brought, or the one its own force fetch brought;
   and a result that a force fetch of an older generation brings late leaves it alone.
   */
  lemma CachedSetBelongsToGeneration(ttl: int, steps: seq<Step>)
    ensures var s := After(ttl, steps);
            s.cache.generation >= 1 ==>
              && s.cache.generation in s.h.openingSets
              && (s.cache.keys == s.h.openingSets[s.cache.generation]
                  || (s.cache.generation in s.h.forced && s.cache.keys == s.h.forced[s.cache.generation]))
    ensures var s := After(ttl, steps);
            forall g: nat, fetched, now ::
              (Enabled(s, FetchDone(g, fetched, now)) && s.gs[g].pc.ForceFetching?
               && s.gs[g].pc.gen != s.cache.generation) ==>
              Apply(ttl, s, FetchDone(g, fetched, now)).cache.keys == s.cache.keys
  {
    InvAlways(ttl, steps);
  }

  // ---------- clock and claims ----------

  /**
   `fetchedAt` is the clock reading at which the generation was opened, keys read from the cache were younger than
   `ttl`, and a generation's force refresh is used up exactly by a force fetch or by the miss that opened the
   generation.
   */
  predicate Timely(ttl: int, s: System) {
    && (forall gen :: gen in s.h.openedAt ==> 1 <= gen <= s.cache.generation)
    && (s.cache.generation >= 1 ==>
          s.cache.generation in s.h.openedAt && s.cache.fetchedAt == s.h.openedAt[s.cache.generation])
    && (forall g :: 0 <= g < |s.gs| && s.gs[g].pc.Returned? && s.gs[g].pc.readAt.Some? ==>
          s.gs[g].pc.gen in s.h.openedAt && s.gs[g].pc.readAt.value - s.h.openedAt[s.gs[g].pc.gen] < ttl)
    && (forall gen :: gen in s.h.missed ==> 1 <= gen <= s.cache.generation && gen !in s.h.forceStarts)
    && (s.cache.generation >= 1 ==>
          (s.cache.forceClaimedGen == s.cache.generation <==>
           s.cache.generation in s.h.missed || s.cache.generation in s.h.forceStarts))
  }

  lemma ApplyKeepsTimely(ttl: int, s: System, e: Step)
    requires Inv(s) && Timely(ttl, s)
    ensures Timely(ttl, Apply(ttl, s, e))
  {
    hide ChannelsOk, LeadersOk, CallOk, KeysOk;
    if Enabled(s, e) {
      match e
      case Call(_) =>
      case Top(g, now) => TopKeepsTimely(ttl, s, g, now);
      case Wake(g) =>
      case Cancel(g) =>
      case FetchDone(g, fetched, now) =>
        if s.gs[g].pc.TtlFetching? { TtlLeaderIsCurrent(s, g); }
    }
  }

  lemma TtlLeaderIsCurrent(s: System, g: nat)
    requires Inv(s) && g < |s.gs| && s.gs[g].pc.TtlFetching?
    ensures s.gs[g].pc.gen == s.cache.generation
  {
  }

  lemma TopKeepsTimely(ttl: int, s: System, g: nat, now: int)
    requires Inv(s) && Timely(ttl, s) && Enabled(s, Top(g, now))
    ensures Timely(ttl, Apply(ttl, s, Top(g, now)))
  {
    hide ChannelsOk, LeadersOk, CallOk, KeysOk;
  }

  lemma {:induction false} TimelyAlways(ttl: int, steps: seq<Step>)
    ensures Timely(ttl, After(ttl, steps))
  {
    hide Inv, Apply;
    if steps != [] {
      TimelyAlways(ttl, steps[..|steps| - 1]);
      InvAlways(ttl, steps[..|steps| - 1]);
      ApplyKeepsTimely(ttl, After(ttl, steps[..|steps| - 1]), steps[|steps| - 1]);
    }
  }

  /** The generation's one force refresh has been used, by a force fetch or by the miss that opened it. */
  predicate Spent(s: System) { s.cache.generation in s.h.missed || s.cache.generation in s.h.forceStarts }

  /**
   What a goroutine at the top of the loop does, in every reachable state, by the age of the cache alone: it is served
   from the cache only while the cache is younger than `ttl`; an unknown key id starts the generation's force fetch
   unless that is spent; and with no cache or an older one it waits for the TTL fetch in flight or leads one.
   */
  lemma TopExactly(ttl: int, steps: seq<Step>, g: nat, now: int)
    requires g < |After(ttl, steps).gs| && After(ttl, steps).gs[g].pc.Entering?
    ensures var s := After(ttl, steps); var s' := Apply(ttl, s, Top(g, now)); var kid, pc := s.gs[g].kid, s'.gs[g].pc;
            if s.cache.generation in s.h.openedAt && now - s.h.openedAt[s.cache.generation] < ttl then
              if kid in s.cache.keys then
                pc == Returned(s.cache.keys[kid], s.cache.generation, Some(now), s.h.installedAt) && s'.cache == s.cache
              else if Spent(s) then
                && s'.cache == s.cache
                && pc == if s.cache.forceWait.Some? then Waiting(s.cache.forceWait.value) else Refused
              else pc.ForceFetching? && pc.gen == s.cache.generation && s'.h.forceStarts == s.h.forceStarts + [pc.gen]
            else if s.cache.ttlWait.Some? then pc == Waiting(s.cache.ttlWait.value) && s'.cache == s.cache
            else pc.TtlFetching? && pc.gen == s.cache.generation && s'.h.forceStarts == s.h.forceStarts
  {
    hide After, ChannelsOk, LeadersOk, CallOk, KeysOk;
    InvAlways(ttl, steps);
    TimelyAlways(ttl, steps);
  }

  /** A generation opened by a fetch that lacked its leader's key id never starts a force fetch. */
  lemma MissUsesUpForceRefresh(ttl: int, steps: seq<Step>)
    ensures var s := After(ttl, steps); forall gen :: gen in s.h.missed ==> gen !in s.h.forceStarts
  {
    TimelyAlways(ttl, steps);
  }

  /** The key was read from the cache less than `ttl` after its generation was opened. */
  predicate Young(ttl: int, h: History, pc: Pc)
    requires pc.Returned?
  {
    pc.readAt.Some? && pc.gen in h.openedAt && pc.readAt.value - h.openedAt[pc.gen] < ttl
  }

  /**
   A key handed out was published under the requested id in a fetched set, and it was read less than `ttl` after the
   generation of that set was opened or belongs to a set installed after the call had begun.
   */
  lemma ReturnedKeyIsCurrent(ttl: int, steps: seq<Step>, g: nat)
    requires g < |After(ttl, steps).gs| && After(ttl, steps).gs[g].pc.Returned?
    ensures var s := After(ttl, steps); var call := s.gs[g];
            && Published(s.h, call.pc.gen, call.kid, call.pc.key)
            && (call.begun < call.pc.installedAt || Young(ttl, s.h, call.pc))
  {
    InvAlways(ttl, steps);
    TimelyAlways(ttl, steps);
    assert CallOk(After(ttl, steps), g);
  }

  lemma {:induction false} IncreasingIsShort(xs: seq<nat>, bound: nat)
    requires forall i :: 0 <= i < |xs| ==> 1 <= xs[i] <= bound
    requires forall i, j :: 0 <= i < j < |xs| ==> xs[i] < xs[j]
    ensures |xs| <= bound
  {
    if xs != [] {
      IncreasingIsShort(xs[..|xs| - 1], xs[|xs| - 1] - 1);
    }
  }

  /**
   Unknown key ids cannot amplify traffic: no generation starts two force fetches, and one TTL fetch at most is in
   flight.
   */
  lemma FetchesAreBounded(ttl: int, steps: seq<Step>)
    ensures var s := After(ttl, steps); |s.h.forceStarts| <= s.cache.generation
    ensures var s := After(ttl, steps);
            forall i, j :: 0 <= i < j < |s.h.forceStarts| ==> s.h.forceStarts[i] != s.h.forceStarts[j]
    ensures var s := After(ttl, steps);
            forall f, g :: 0 <= f < |s.gs| && 0 <= g < |s.gs| && s.gs[f].pc.TtlFetching? && s.gs[g].pc.TtlFetching? ==>
                f == g
  {
    InvAlways(ttl, steps);
    var s := After(ttl, steps);
    IncreasingIsShort(s.h.forceStarts, s.cache.generation);
  }

  /** No wait channel is ever closed twice, whether or not anybody waits on it. */
  lemma ChannelsCloseOnce(ttl: int, steps: seq<Step>)
    ensures !After(ttl, steps).cache.closedTwice
  {
    InvAlways(ttl, steps);
  }

  /** A waiting call goes on waiting until its channel is closed or the call itself is cancelled. */
  lemma WaitersWait(ttl: int, s: System, e: Step, g: nat)
    requires g < |s.gs| && s.gs[g].pc.Waiting? && s.gs[g].pc.ch !in s.cache.closed && e != Cancel(g)
    ensures g < |Apply(ttl, s, e).gs| && Apply(ttl, s, e).gs[g] == s.gs[g]
  {
  }

  /** Nobody waits on a channel that no one will close. */
  lemma NoWaiterIsLost(ttl: int, steps: seq<Step>, g: nat)
    requires g < |After(ttl, steps).gs| && After(ttl, steps).gs[g].pc.Waiting?
    ensures var s := After(ttl, steps); var ch := s.gs[g].pc.ch;
            ch in s.cache.closed || exists f :: 0 <= f < |s.gs| && FetchingOn(s.gs[f].pc, ch)
  {
    InvAlways(ttl, steps);
    var s := After(ttl, steps);
    assert s.h.owner[s.gs[g].pc.ch] < |s.gs|;
  }

  /**
   The protocol cannot deadlock: while a call is unfinished, some call can take a step that needs no new caller and no
   cancellation.
   */
  lemma SomeoneCanMove(ttl: int, steps: seq<Step>, g: nat) returns (e: Step)
    requires g < |After(ttl, steps).gs| && !Finished(After(ttl, steps).gs[g].pc)
    ensures Enabled(After(ttl, steps), e) && !e.Call? && !e.Cancel?
  {
    InvAlways(ttl, steps);
    var s := After(ttl, steps);
    match s.gs[g].pc
    case Entering => e := Top(g, 0);
    case Waiting(ch) => e := if ch in s.cache.closed then Wake(g) else FetchDone(s.h.owner[ch], None, 0);
    case ForceFetching(_, _, _, _) => e := FetchDone(g, None, 0);
    case TtlFetching(_, _) => e := FetchDone(g, None, 0);
  }

  /**
   A caller with an unknown key id normally waits for its generation's force fetch. It is refused instead, although
   that fetch is still running, exactly when some force fetch has ended since this one was claimed.
   */
  lemma RefusedDuringForceFetch(ttl: int, steps: seq<Step>, leader: nat, g: nat, now: int)
    requires var s := After(ttl, steps);
             && leader < |s.gs| && s.gs[leader].pc.ForceFetching? && s.gs[leader].pc.gen == s.cache.generation
             && g < |s.gs| && s.gs[g].pc.Entering? && Fresh(s.cache, ttl, now) && s.gs[g].kid !in s.cache.keys
    ensures var s := After(ttl, steps); var pc := Apply(ttl, s, Top(g, now)).gs[g].pc;
            pc == (if s.h.forceEndedAt >= s.gs[leader].pc.claimedAt then Refused else Waiting(s.gs[leader].pc.ch))
  {
    InvAlways(ttl, steps);
    var s := After(ttl, steps);
    assert CallOk(s, leader) && ForceOk(s, leader);
    var i :| 0 <= i < |s.h.forceStarts| && s.h.forceStarts[i] == s.cache.generation;
    assert i == |s.h.forceStarts| - 1;
  }

  lemma AfterOneMore(ttl: int, steps: seq<Step>, e: Step)
    ensures After(ttl, steps + [e]) == Apply(ttl, After(ttl, steps), e)
  {
    assert (steps + [e])[..|steps|] == steps;
  }

  // ---------- one call ----------

  /** What the caller sees of a call, or the channel on which it is left waiting. */
  datatype Answer = KeyFound(key: Key) | Unauthenticated | FetchFailed | StillWaiting(ch: nat)

  function AnswerOf(pc: Pc): Option<Answer> {
    match pc
    case Returned(key, _, _, _) => Some(KeyFound(key))
    case Refused => Some(Unauthenticated)
    case Unavailable => Some(FetchFailed)
    case Waiting(ch) => Some(StillWaiting(ch))
    case _ => None
  }

  /**
   Goroutine `g` at the top of the loop takes its turn and, if it leads a fetch, ends it before anybody else moves.
   */
  ghost function OneTurn(ttl: int, s: System, g: nat, now: int, fetched: Option<KeySet>, later: int): System {
    Apply(ttl, Apply(ttl, s, Top(g, now)), FetchDone(g, fetched, later))
  }

  /**
   One pass of the loop on the mutable cache, in any state of the protocol: it leaves the cache that the protocol's
   steps give, answers as they do, and a key it returns was published under `kid` and is current.
   */
  method PublicKey(cache: JWKSCache, kid: Kid, now: int, fetched: Option<KeySet>, later: int,
                   ghost steps: seq<Step>, ghost g: nat)
    returns (a: Answer)
    requires var s := After(cache.ttl, steps);
             s.cache == cache.Snapshot() && g < |s.gs| && s.gs[g].pc.Entering? && s.gs[g].kid == kid
    modifies cache
    ensures var s := OneTurn(cache.ttl, After(cache.ttl, steps), g, now, fetched, later);
            && cache.Snapshot() == s.cache && AnswerOf(s.gs[g].pc) == Some(a)
            && (a.KeyFound? ==> Published(s.h, s.gs[g].pc.gen, kid, a.key)
                                && (s.gs[g].begun < s.gs[g].pc.installedAt || Young(cache.ttl, s.h, s.gs[g].pc)))
  {
    hide After, Published, Inv, Timely;
    InvAlways(cache.ttl, steps);
    TimelyAlways(cache.ttl, steps);
    TurnIsCurrent(cache.ttl, After(cache.ttl, steps), g, now, fetched, later);
    var r := cache.Decide(kid, now);
    match r
    case Found(key) => a := KeyFound(key);
    case Refuse => a := Unauthenticated;
    case WaitOn(ch) => a := StillWaiting(ch);
    case LeadForce(gen, fetchedAt, ch) =>
      var key := cache.EndForce(gen, fetchedAt, ch, kid, fetched);
      a := if fetched.None? then FetchFailed else if key.Some? then KeyFound(key.value) else Unauthenticated;
    case LeadTtl(gen, ch) =>
      var key := cache.EndTtl(gen, ch, kid, fetched, later);
      a := if fetched.None? then FetchFailed else if key.Some? then KeyFound(key.value) else Unauthenticated;
  }

  lemma TurnIsCurrent(ttl: int, s: System, g: nat, now: int, fetched: Option<KeySet>, later: int)
    requires Inv(s) && Timely(ttl, s) && g < |s.gs| && s.gs[g].pc.Entering?
    ensures var s' := OneTurn(ttl, s, g, now, fetched, later);
            g < |s'.gs| && s'.gs[g].kid == s.gs[g].kid
            && (s'.gs[g].pc.Returned? ==>
                  Published(s'.h, s'.gs[g].pc.gen, s'.gs[g].kid, s'.gs[g].pc.key)
                  && (s'.gs[g].begun < s'.gs[g].pc.installedAt || Young(ttl, s'.h, s'.gs[g].pc)))
  {
    hide Apply;
    var s1 := Apply(ttl, s, Top(g, now));
    ApplyKeepsInv(ttl, s, Top(g, now));
    ApplyKeepsInv(ttl, s1, FetchDone(g, fetched, later));
    ApplyKeepsTimely(ttl, s, Top(g, now));
    ApplyKeepsTimely(ttl, s1, FetchDone(g, fetched, later));
    ApplyKeepsCallers(ttl, s, Top(g, now));
    ApplyKeepsCallers(ttl, s1, FetchDone(g, fetched, later));
    assert CallOk(OneTurn(ttl, s, g, now, fetched, later), g);
  }

  lemma ApplyKeepsCallers(ttl: int, s: System, e: Step)
    ensures var s' := Apply(ttl, s, e);
            |s.gs| <= |s'.gs| && forall g :: 0 <= g < |s.gs| ==> s'.gs[g].kid == s.gs[g].kid
  {
  }

  // A run in which a caller is refused while its generation's force fetch is in flight: a slow force fetch of
  // generation 1 ends while generation 2 is force fetching.

  const SET: KeySet := map[1 := 7]

  /** Generation 1 knows key id 1, and a force fetch for key id 2 is in flight. */
  const SLOW_FORCE := System(
    Cache(SET, 0, true, 1, 1, Some(1), None, 2, {0}, false),
    [Goroutine(1, 1, Returned(7, 1, None, 3)), Goroutine(2, 4, ForceFetching(1, 0, 1, 5))],
    6, History(map[1 := SET], map[1 := 0], {}, map[], [1], [0, 1], 3, 0))

  /** The cache has expired and been refilled: generation 2, with its own force fetch in flight beside the slow one. */
  const TWO_FORCES := System(
    Cache(SET, 50, true, 2, 2, Some(3), None, 4, {0, 2}, false),
    SLOW_FORCE.gs + [Goroutine(1, 6, Returned(7, 2, None, 8)), Goroutine(2, 9, ForceFetching(2, 50, 3, 10))],
    11, History(map[1 := SET, 2 := SET], map[1 := 0, 2 := 50], {}, map[], [1, 2], [0, 1, 2, 3], 8, 0))

  const PHASE1 := [Call(1), Top(0, 0), FetchDone(0, Some(SET), 0), Call(2), Top(1, 1)]
  const PHASE2 := [Call(1), Top(2, 50), FetchDone(2, Some(SET), 50), Call(2), Top(3, 51)]
  const PHASE3 := [FetchDone(1, None, 52), Call(2), Top(4, 53)]

  lemma Phase1()
    ensures After(10, PHASE1) == SLOW_FORCE
  {
    var e := PHASE1;
    assert After(10, []) == START;
    hide After;
    AfterOneMore(10, [], e[0]);
    AfterOneMore(10, [] + [e[0]], e[1]);
    AfterOneMore(10, [] + [e[0]] + [e[1]], e[2]);
    AfterOneMore(10, [] + [e[0]] + [e[1]] + [e[2]], e[3]);
    AfterOneMore(10, [] + [e[0]] + [e[1]] + [e[2]] + [e[3]], e[4]);
    assert PHASE1 == [] + [e[0]] + [e[1]] + [e[2]] + [e[3]] + [e[4]];
  }

  lemma Phase2()
    ensures After(10, PHASE1 + PHASE2) == TWO_FORCES
  {
    hide After;
    Phase1();
    var e := PHASE2;
    AfterOneMore(10, PHASE1, e[0]);
    AfterOneMore(10, PHASE1 + [e[0]], e[1]);
    AfterOneMore(10, PHASE1 + [e[0]] + [e[1]], e[2]);
    AfterOneMore(10, PHASE1 + [e[0]] + [e[1]] + [e[2]], e[3]);
    AfterOneMore(10, PHASE1 + [e[0]] + [e[1]] + [e[2]] + [e[3]], e[4]);
    assert PHASE1 + PHASE2 == PHASE1 + [e[0]] + [e[1]] + [e[2]] + [e[3]] + [e[4]];
  }

  lemma RefusalDuringForceFetchHappens()
    ensures var s := After(10, PHASE1 + PHASE2 + PHASE3);
            |s.gs| == 5 && s.gs[4].pc.Refused? && s.gs[3].pc.ForceFetching? && s.gs[3].pc.gen == s.cache.generation
  {
    hide After;
    Phase2();
    var steps, e := PHASE1 + PHASE2, PHASE3;
    AfterOneMore(10, steps, e[0]);
    AfterOneMore(10, steps + [e[0]], e[1]);
    AfterOneMore(10, steps + [e[0]] + [e[1]], e[2]);
    assert steps + PHASE3 == steps + [e[0]] + [e[1]] + [e[2]];
  }
}
