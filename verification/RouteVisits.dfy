/** Visiting a chat route before it is dispatched: deliveries that can no longer be
    confirmed are settled, and the route is looked through for work
    (internal/gateway/im_ingress_dispatch.go:68-88, 367-410, 478-487).

    The visit reads the route once; what changes meanwhile is the scheduler's part. */
module RouteVisits {
  import opened IngressTypes
  import opened IngressSpec
  import opened IngressInvariant
  import opened IngressRuns
  import IngressIndex
  import IngressStore
  import Scheduler

  const SECOND: int := 1_000_000_000
  const STALL_DEADLINE: int := 300 * SECOND
  const BLOCKED_WINDOW: int := 30 * SECOND

  /** Since when each chat is held after an outcome that could not be recorded. */
  type Holds = map<ChatIdentity, int>

  predicate Stalled(r: Record, now: int) {
    InFlight(r.state) && now - r.updatedAt >= STALL_DEADLINE
  }

  /** finish: a record that cannot be settled holds its chat, unless it is settled already. */
  function Finished(lib: Library, s: Store, held: Holds, r: Record, state: State, reason: string, at: int)
    : (Store, Holds)
  {
    var (after, error) := Update(lib, s, r.recordID, Scheduler.PENDING_STATES, Scheduler.Finishing(state, reason));
    if error == NoError || (r.recordID in after.records && after.records[r.recordID].Terminal()) then (after, held)
    else (after, held[r.Identity() := at])
  }

  /** settleStalledRecords, over the records as they were listed. */
  function Settled(lib: Library, s: Store, held: Holds, listed: seq<Record>, now: int, at: int): (Store, Holds) {
    if listed == [] then (s, held)
    else
      var (before, holds) := Settled(lib, s, held, listed[..|listed| - 1], now, at);
      var r := listed[|listed| - 1];
      if Stalled(r, now) then Finished(lib, before, holds, r, Expired, "receipt_timeout", at) else (before, holds)
  }

  /** Pending records of the store, each listed once. */
  ghost predicate Listing(s: Store, listed: seq<Record>) {
    && (forall i, j :: 0 <= i < j < |listed| ==> listed[i].recordID != listed[j].recordID)
    && forall i :: 0 <= i < |listed| ==> ListedFrom(s, listed[i])
  }

  ghost predicate ListedFrom(s: Store, r: Record) {
    r.recordID in s.records && r == IngressStore.Shown(s.records[r.recordID], true) && !r.Terminal()
  }

  predicate Among(listed: seq<Record>, id: string, now: int) {
    exists i :: 0 <= i < |listed| && listed[i].recordID == id && Stalled(listed[i], now)
  }

  /** Given up because no receipt came within five minutes. */
  predicate TimedOut(r: Record) {
    r.Terminal() && r.state.Expired? && r.reason == "receipt_timeout"
  }

  ghost predicate OnlySettles(before: map<string, Record>, after: map<string, Record>, id: string) {
    && after.Keys == before.Keys
    && (forall other <- before :: other != id ==> after[other] == before[other])
    && (id in after ==> TimedOut(after[id]) && SameOrigin(before[id], after[id]))
  }

  lemma FinishedOne(lib: Library, s: Store, held: Holds, r: Record, at: int)
    requires Inv(lib, s) && !s.closed && r.recordID in s.records && !s.records[r.recordID].Terminal()
    ensures var (after, holds) := Finished(lib, s, held, r, Expired, "receipt_timeout", at);
            && Inv(lib, after) && holds == held && after.now == s.now && !after.closed
            && OnlySettles(s.records, after.records, r.recordID)
  {
    hide Inv, Kept, Lawful;
    NamedByID(lib, s);
    FinishingLawful(Expired, "receipt_timeout");
    UpdateInv(lib, s, r.recordID, Scheduler.PENDING_STATES, Scheduler.Finishing(Expired, "receipt_timeout"));
    assert !Reserved("receipt_timeout");
    KeptSame(lib, s.records[r.recordID].(state := Expired, reason := "receipt_timeout", updatedAt := s.now));
  }

  /** A pending record gets exactly this state and reason; one that cannot be changed and
      is not settled yet holds its chat instead. */
  lemma FinishedMeaning(lib: Library, s: Store, held: Holds, r: Record, state: State, reason: string, at: int)
    requires Inv(lib, s)
    ensures var (after, holds) := Finished(lib, s, held, r, state, reason, at);
            if !s.closed && r.recordID in s.records && !s.records[r.recordID].Terminal()
               && !state.Unset? && !Reserved(reason)
            then
              && holds == held && r.recordID in after.records
              && after.records[r.recordID].state == state && after.records[r.recordID].reason == reason
              && after.records - {r.recordID} == s.records - {r.recordID}
            else
              && after == s
              && holds == if r.recordID in s.records && s.records[r.recordID].Terminal() then held
                          else held[r.Identity() := at]
  {
    hide Inv, Kept, Update, Reserved;
    NamedByID(lib, s);
    if !s.closed && r.recordID in s.records && !s.records[r.recordID].Terminal() {
      FinishesPending(lib, s, r.recordID, state, reason);
    } else {
      FinishesNothing(lib, s, r.recordID, state, reason);
    }
  }

  lemma FinishesPending(lib: Library, s: Store, id: string, state: State, reason: string)
    requires !s.closed && id in s.records && s.records[id].recordID == id
    requires !s.records[id].Terminal() && !s.records[id].state.Unset?
    ensures var (after, error) := Update(lib, s, id, Scheduler.PENDING_STATES, Scheduler.Finishing(state, reason));
            if state.Unset? || Reserved(reason) then after == s && error != NoError
            else
              && error == NoError && id in after.records && after.records - {id} == s.records - {id}
              && after.records[id].state == state && after.records[id].reason == reason
  {
    hide Kept, Reserved;
    var r := s.records[id].(state := state, reason := reason).(updatedAt := s.now);
    KeptSame(lib, r);
    Rebound(s.records, id, Kept(lib, r));
  }

  lemma Rebound(records: map<string, Record>, id: string, r: Record)
    ensures records[id := r] - {id} == records - {id}
  {
  }

  lemma FinishesNothing(lib: Library, s: Store, id: string, state: State, reason: string)
    requires s.closed || id !in s.records || s.records[id].Terminal()
    ensures var (after, error) := Update(lib, s, id, Scheduler.PENDING_STATES, Scheduler.Finishing(state, reason));
            after == s && error != NoError
  {
    hide Saved;
  }

  lemma FinishingLawful(state: State, reason: string)
    ensures Lawful(Scheduler.Finishing(state, reason)) && forall s <- Scheduler.PENDING_STATES :: !Final(s)
  {
  }

  lemma SettledNothing(lib: Library, s: Store, held: Holds, at: int)
    ensures Settled(lib, s, held, [], s.now, at) == (s, held)
    ensures forall id :: !Among([], id, s.now)
  {
  }

  lemma SettledStep(lib: Library, s: Store, held: Holds, listed: seq<Record>, i: nat, now: int, at: int)
    requires i < |listed|
    ensures var (before, holds) := Settled(lib, s, held, listed[..i], now, at);
            Settled(lib, s, held, listed[..i + 1], now, at) ==
            if Stalled(listed[i], now) then Finished(lib, before, holds, listed[i], Expired, "receipt_timeout", at)
              else (before, holds)
  {
    hide Finished, Stalled;
    assert listed[..i + 1][..i] == listed[..i];
  }

  /** What a listing of the route's pending records is made of. */
  lemma ListedRoute(lib: Library, s: Store, route: ChatIdentity, listed: seq<Record>)
    requires Inv(lib, s) && IngressIndex.Sorted(listed)
    requires forall r :: r in listed <==> exists id ::
               id in s.records
               && IngressStore.Listed(s.records[id], Some(route), true) && r == IngressStore.Shown(s.records[id], true)
    ensures Listing(s, listed)
    ensures forall id <- s.records :: Among(listed, id, s.now) <==>
              s.records[id].Identity() == route && Stalled(s.records[id], s.now)
    ensures IsListing(s, route, listed)
  {
    hide Inv;
    NamedByID(lib, s);
    forall i | 0 <= i < |listed|
      ensures ListedFrom(s, listed[i]) && s.records[listed[i].recordID].Identity() == route
    {
      assert listed[i] in listed;
    }
    forall i, j | 0 <= i < j < |listed|
      ensures listed[i].recordID != listed[j].recordID
    {
      IngressIndex.BeforeTotal(listed[i], listed[j]);
      assert listed[i] != listed[j];
      assert ListedFrom(s, listed[i]) && ListedFrom(s, listed[j]);
    }
    forall id | id in s.records
      ensures Among(listed, id, s.now) <==> s.records[id].Identity() == route && Stalled(s.records[id], s.now)
    {
      var r := IngressStore.Shown(s.records[id], true);
      if s.records[id].Identity() == route && Stalled(s.records[id], s.now) {
        assert r in listed;
        var i :| 0 <= i < |listed| && listed[i] == r;
        assert Stalled(listed[i], s.now);
      }
    }
  }

  /** Exactly the listed deliveries that were stalled are settled; nothing is held. */
  lemma {:induction false} SettledExactly(lib: Library, s: Store, held: Holds, listed: seq<Record>, at: int)
    requires Inv(lib, s) && !s.closed && Listing(s, listed)
    ensures var (after, holds) := Settled(lib, s, held, listed, s.now, at);
            && Inv(lib, after) && holds == held && after.now == s.now && !after.closed
            && after.records.Keys == s.records.Keys
            && (forall id <- s.records :: Among(listed, id, s.now) ==> TimedOut(after.records[id]))
            && (forall id <- s.records :: !Among(listed, id, s.now) ==> after.records[id] == s.records[id])
    decreases |listed|
  {
    hide *;
    SettledNothing(lib, s, held, at);
    if listed != [] {
      var n := |listed| - 1;
      var front, r := listed[..n], listed[n];
      ListingStep(s, listed);
      SettledExactly(lib, s, held, front, at);
      SettledStep(lib, s, held, listed, n, s.now, at);
      assert listed[..n + 1] == listed;
      var before, after := Settled(lib, s, held, front, s.now, at).0, Settled(lib, s, held, listed, s.now, at).0;
      if Stalled(r, s.now) {
        FinishedOne(lib, before, held, r, at);
        OthersUntouched(before.records, after.records, r.recordID);
      }
    }
  }

  lemma OthersUntouched(before: map<string, Record>, after: map<string, Record>, id: string)
    requires OnlySettles(before, after, id)
    ensures after.Keys == before.Keys && (id in after ==> TimedOut(after[id]) && after[id].Terminal())
    ensures forall other <- before :: other != id ==> after[other] == before[other]
  {
  }

  lemma ListingStep(s: Store, listed: seq<Record>)
    requires Listing(s, listed) && listed != []
    ensures var n := |listed| - 1;
            var r := listed[n];
            && Listing(s, listed[..n]) && !Among(listed[..n], r.recordID, s.now)
            && r.recordID in s.records && !s.records[r.recordID].Terminal()
            && forall id :: Among(listed, id, s.now) <==>
                 Among(listed[..n], id, s.now) || (id == r.recordID && Stalled(r, s.now))
  {
    var n := |listed| - 1;
    assert ListedFrom(s, listed[n]);
    forall id: string
      ensures Among(listed, id, s.now) <==>
                Among(listed[..n], id, s.now) || (id == listed[n].recordID && Stalled(listed[n], s.now))
    {
      if Among(listed[..n], id, s.now) {
        var i :| 0 <= i < n && listed[..n][i].recordID == id && Stalled(listed[..n][i], s.now);
        assert listed[i] == listed[..n][i];
      }
    }
  }

  /** Nothing of the route is in flight. */
  ghost predicate Clear(records: map<string, Record>, route: ChatIdentity) {
    forall id <- PendingOn(records, route) :: !InFlight(records[id].state)
  }

  ghost predicate ReadyIn(records: map<string, Record>, route: ChatIdentity, routeBlocked: bool) {
    exists id <- PendingOn(records, route) ::
      records[id].state.Received? && (records[id].kind == "task" ==> !routeBlocked && Clear(records, route))
  }

  ghost predicate IsListing(s: Store, route: ChatIdentity, listed: seq<Record>) {
    && (forall r <- listed ::
          r.recordID in PendingOn(s.records, route) && r == IngressStore.Shown(s.records[r.recordID], true))
    && (forall id <- PendingOn(s.records, route) :: IngressStore.Shown(s.records[id], true) in listed)
  }

  /** Only pending records are listed, so the barrier of quarantined ones never holds. */
  lemma ReadyRoute(s: Store, route: ChatIdentity, listed: seq<Record>, routeBlocked: bool)
    requires IsListing(s, route, listed)
    ensures ReadyIn(s.records, route, routeBlocked) <==> ReadyAmong(listed, routeBlocked)
  {
    assert (exists r <- listed :: InFlight(r.state)) <==> !Clear(s.records, route) by {
      if !Clear(s.records, route) {
        var id :| id in PendingOn(s.records, route) && InFlight(s.records[id].state);
        assert InFlight(IngressStore.Shown(s.records[id], true).state);
      }
    }
    assert forall revision :: !Suspended(listed, revision);
    hide Clear, Suspended;
    if ReadyIn(s.records, route, routeBlocked) {
      var id :| id in PendingOn(s.records, route) && s.records[id].state.Received?
        && (s.records[id].kind == "task" ==> !routeBlocked && Clear(s.records, route));
      assert IngressStore.Shown(s.records[id], true) in listed;
    }
  }

  ghost predicate ReadyAmong(listed: seq<Record>, routeBlocked: bool) {
    exists r <- listed :: r.state.Received?
      && (r.kind == "task" ==> !routeBlocked && !Suspended(listed, r.routeRevision) && forall x <- listed ::
          !InFlight(x.state))
  }

  /** A listed record of this revision is quarantined. */
  ghost predicate Suspended(listed: seq<Record>, revision: string) {
    exists x <- listed :: x.state.Quarantined? && x.routeRevision == revision
  }

  lemma SettledRoute(lib: Library, s: Store, held: Holds, route: ChatIdentity, listed: seq<Record>, at: int)
    requires Inv(lib, s) && !s.closed && Listing(s, listed)
    requires forall id <- s.records :: Among(listed, id, s.now) <==>
               s.records[id].Identity() == route && Stalled(s.records[id], s.now)
    ensures var (after, holds) := Settled(lib, s, held, listed, s.now, at);
            && holds == held && after.records.Keys == s.records.Keys
            && forall id <- s.records ::
                 if s.records[id].Identity() == route && Stalled(s.records[id], s.now) then TimedOut(after.records[id])
                 else after.records[id] == s.records[id]
  {
    hide *;
    SettledExactly(lib, s, held, listed, at);
  }

  class IngressService {
    const store: IngressStore.IngressStore
    var held: Holds

    constructor (store: IngressStore.IngressStore)
      ensures this.store == store && held == map[]
    {
      this.store := store;
      held := map[];
    }

    /** routeBlockedLocked: a hold ends by itself after thirty seconds. */
    method RouteBlocked(route: ChatIdentity, at: int) returns (blocked: bool)
      modifies this`held
      ensures blocked <==> route in old(held) && at - old(held)[route] < BLOCKED_WINDOW
      ensures held == if route in old(held) && !blocked then old(held) - {route} else old(held)
    {
      if route !in held {
        return false;
      }
      if at - held[route] >= BLOCKED_WINDOW {
        held := held - {route};
        return false;
      }
      blocked := true;
    }

    /** finish */
    method Finish(r: Record, state: State, reason: string, at: int)
      requires store.Valid()
      modifies this`held, store
      ensures store.Valid() && (store.Abs(), held) == Finished(store.lib, old(store.Abs()), old(held), r, state,
                                                               reason, at)
      ensures if !old(store.closing) && r.recordID in old(store.records) && !old(store.records)[r.recordID].Terminal()
                 && !state.Unset? && !Reserved(reason)
              then
                && held == old(held) && r.recordID in store.records
                && store.records[r.recordID].state == state && store.records[r.recordID].reason == reason
                && store.records - {r.recordID} == old(store.records) - {r.recordID}
              else
                && store.records == old(store.records)
                && held == if r.recordID in store.records && store.records[r.recordID].Terminal() then old(held)
                           else old(held)[r.Identity() := at]
    {
      hide Inv;
      FinishedMeaning(store.lib, store.Abs(), held, r, state, reason, at);
      FinishingLawful(state, reason);
      var error := store.UpdateRecord(r.recordID, Scheduler.PENDING_STATES, Scheduler.Finishing(state, reason));
      if error != NoError {
        var current := store.Get(r.recordID);
        if current.Some? && current.value.Terminal() {
          return;
        }
        held := held[r.Identity() := at];
      }
    }

    /** settleStalledRecords */
    method SettleStalledRecords(listed: seq<Record>, at: int)
      requires store.Valid()
      modifies this`held, store
      ensures store.Valid()
      ensures (store.Abs(), held) == Settled(store.lib, old(store.Abs()), old(held), listed, old(store.now), at)
    {
      hide Inv, Stalled, Finished, Settled;
      var now := store.now;
      var i := 0;
      SettledNothing(store.lib, store.Abs(), held, at);
      assert listed[..0] == [];
      while i < |listed|
        invariant 0 <= i <= |listed| && store.Valid()
        invariant (store.Abs(), held) == Settled(store.lib, old(store.Abs()), old(held), listed[..i], now, at)
      {
        SettledStep(store.lib, old(store.Abs()), old(held), listed, i, now, at);
        if Stalled(listed[i], now) {
          Finish(listed[i], Expired, "receipt_timeout", at);
        }
        i := i + 1;
      }
      assert listed[..i] == listed;
    }

    /** ListRoutePendingMetadata */
    method ListRoute(route: ChatIdentity) returns (listed: seq<Record>)
      requires store.Valid()
      ensures Inv(store.lib, store.Abs()) && IsListing(store.Abs(), route, listed) && Listing(store.Abs(), listed)
      ensures forall id <- store.records ::
                Among(listed, id, store.now) <==>
                  store.records[id].Identity() == route && Stalled(store.records[id], store.now)
    {
      hide Inv, Listing, Among, Stalled, IsListing, PendingOn;
      listed := store.List(Some(route), true, true);
      ListedRoute(store.lib, store.Abs(), route, listed);
    }

    /** The two passes of visitRoute over its listing. */
    method AnyReady(listed: seq<Record>, routeBlocked: bool) returns (ready: bool)
      ensures ready <==> ReadyAmong(listed, routeBlocked)
    {
      var blocked := false;
      var quarantined: set<string> := {};
      var i := 0;
      while i < |listed|
        invariant 0 <= i <= |listed|
        invariant quarantined == set j | 0 <= j < i && listed[j].state.Quarantined? :: listed[j].routeRevision
        invariant blocked <==> exists j :: 0 <= j < i && InFlight(listed[j].state)
      {
        if listed[i].state.Dispatching? || listed[i].state.Unknown? {
          blocked := true;
        }
        if listed[i].state.Quarantined? {
          quarantined := quarantined + {listed[i].routeRevision};
        }
        i := i + 1;
      }
      assert blocked <==> exists x <- listed :: InFlight(x.state);
      assert forall revision :: revision in quarantined <==> Suspended(listed, revision);
      i := 0;
      while i < |listed|
        invariant 0 <= i <= |listed|
        invariant forall j :: 0 <= j < i ==>
                    !(listed[j].state.Received? && (listed[j].kind == "task" ==>
                                                    !routeBlocked && !blocked
                                                      && listed[j].routeRevision !in quarantined))
      {
        if listed[i].state.Received? && !(listed[i].kind == "task"
                                          && (blocked || routeBlocked || listed[i].routeRevision in quarantined)) {
          return true;
        }
        i := i + 1;
      }
      ready := false;
    }

    /** visitRoute: after it no delivery of the route has been unconfirmed for five
        minutes, nothing else was settled, and the route is ready exactly if it has a
        received control, or a received task while nothing is in flight or held. */
    method VisitRoute(route: ChatIdentity, routeBlocked: bool, at: int) returns (ready: bool)
      requires store.Valid()
      modifies this`held, store
      ensures store.Valid()
      ensures ready <==> ReadyIn(old(store.records), route, routeBlocked)
      ensures !old(store.closing) ==>
                && held == old(held) && store.records.Keys == old(store.records).Keys
                && (forall id <- old(store.records) ::
                      var r := old(store.records)[id];
                      if r.Identity() == route && Stalled(r, old(store.now)) then TimedOut(store.records[id])
                        else store.records[id] == r)
    {
      hide Inv, Listing, Among, Stalled, IsListing, PendingOn, Settled, ReadyIn, ReadyAmong;
      var listed := ListRoute(route);
      ghost var before := store.Abs();
      SettleStalledRecords(listed, at);
      ready := AnyReady(listed, routeBlocked);
      ReadyRoute(before, route, listed, routeBlocked);
      if !before.closed {
        SettledRoute(store.lib, before, old(held), route, listed, at);
      }
    }
  }
}
