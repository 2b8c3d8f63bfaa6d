/** What the dispatcher of a chat does with the records it finds
    (internal/gateway/im_ingress_dispatch.go:412-487). */
module Dispatching {
  import opened IngressTypes
  import opened IngressSpec
  import opened IngressInvariant
  import Scheduler

  /** The record has this state now; nothing else that identifies it has changed, and no
      other record has. */
  ghost predicate Moved(before: Store, after: Store, id: string, state: State) {
    && id in before.records && id in after.records && after.records - {id} == before.records - {id}
    && after.records[id].state == state && SameOrigin(before.records[id], after.records[id])
    && (!Final(state) ==> after.records[id].text == before.records[id].text)
    && after.routes == before.routes
  }

  /** Records are stored under their own numbers. */
  predicate Stored(s: Store, id: string) {
    id in s.records && s.records[id].recordID == id
  }

  lemma Changed(lib: Library, s: Store, id: string, allowed: set<State>, change: Change)
    requires !s.closed && Stored(s, id) && s.records[id].state in allowed
    requires change(s.records[id]).Some?
    requires var r := change(s.records[id]).value; SameOrigin(s.records[id], r) && r.text == s.records[id].text
    ensures var (after, error), r := Update(lib, s, id, allowed, change), change(s.records[id]).value;
            && error == NoError && Moved(s, after, id, r.state)
            && after.records[id] == Kept(lib, r.(updatedAt := s.now))
  {
    hide Kept;
    var r := change(s.records[id]).value.(updatedAt := s.now);
    KeptOf(lib, r);
    assert s.records[id := Kept(lib, r)] - {id} == s.records - {id};
  }

  lemma KeptOf(lib: Library, r: Record)
    ensures SameOrigin(r, Kept(lib, r)) && Kept(lib, r).state == r.state
    ensures !Final(r.state) ==> Kept(lib, r) == r.(size := Kept(lib, r).size)
  {
  }

  /** The ways to skip to the record at `k`. */
  function Skips(route: ChatIdentity, k: nat): seq<Scheduler.Op> {
    seq(k, i => Scheduler.Skip(route))
  }

  /** A free dispatcher takes the chat, lists its records and goes to the task at `k`. */
  function Turn(route: ChatIdentity, order: seq<string>, k: nat, requestID: string, sessionID: string,
                runtimeID: string, epoch: nat): seq<Scheduler.Op> {
    [Scheduler.Activate(route), Scheduler.List(route, order, false)]
    + (Skips(route, k)
       + [Scheduler.StartTask(route), Scheduler.PublishTask(route, requestID, sessionID, runtimeID, epoch)])
  }

  lemma TaskIsPublished(lib: Library, s: Scheduler.State, route: ChatIdentity, requestID: string, sessionID: string,
                        runtimeID: string, epoch: nat)
    requires Inv(lib, s.store) && !s.store.closed && Scheduler.NextIs(s, route, "task")
    requires !s.dispatchers[route].blocked && s.store.records[s.dispatchers[route].rest[0]].state.Received?
    ensures var id := s.dispatchers[route].rest[0];
            var ops := [Scheduler.StartTask(route),
                        Scheduler.PublishTask(route, requestID, sessionID, runtimeID, epoch)];
            && Scheduler.CanRun(lib, s, ops)
            && var end := Scheduler.Run(lib, s, ops);
               && Moved(s.store, end.store, id, Dispatching) && Scheduler.At(end, route)
               && end.dispatchers[route] == Scheduler.Sent(id)
               && end.store.records[id].requestID == requestID && end.store.records[id].sessionID == sessionID
               && end.store.records[id].dispatchRuntimeID == runtimeID
               && end.store.records[id].dispatchSessionEpoch == epoch
  {
    hide Inv, Kept, Update, Moved, Scheduler.AnyInFlight;
    var id := s.dispatchers[route].rest[0];
    NamedByID(lib, s.store);
    Changed(lib, s.store, id, {Received}, Scheduler.Publishing(requestID, sessionID, runtimeID, epoch));
    KeptOf(lib, Scheduler.Publishing(requestID, sessionID, runtimeID, epoch)(s.store.records[id]).value
                .(updatedAt := s.store.now));
    var start, publish := Scheduler.StartTask(route),
      Scheduler.PublishTask(route, requestID, sessionID, runtimeID, epoch);
    var taken := Scheduler.Step(lib, s, start);
    assert taken.dispatchers[route] == Scheduler.InTask(id) && taken.store == s.store;
    RunTwo(lib, s, start, publish);
  }

  lemma RunTwo(lib: Library, s: Scheduler.State, a: Scheduler.Op, b: Scheduler.Op)
    requires Scheduler.Enabled(s, a) && Scheduler.Enabled(Scheduler.Step(lib, s, a), b)
    ensures Scheduler.CanRun(lib, s, [a, b])
    ensures Scheduler.Run(lib, s, [a, b]) == Scheduler.Step(lib, Scheduler.Step(lib, s, a), b)
  {
    hide Scheduler.Enabled, Scheduler.Step;
    var next := Scheduler.Step(lib, s, a);
    assert [a, b][1..] == [b] && [b][1..] == [];
    assert Scheduler.CanRun(lib, next, [b]);
    var last := Scheduler.Step(lib, next, b);
    assert Scheduler.Run(lib, last, []) == last;
    assert Scheduler.Run(lib, next, [b]) == last;
  }

  lemma {:induction false} RunParts(lib: Library, s: Scheduler.State, a: seq<Scheduler.Op>, b: seq<Scheduler.Op>)
    requires Scheduler.CanRun(lib, s, a) && Scheduler.CanRun(lib, Scheduler.Run(lib, s, a), b)
    ensures Scheduler.CanRun(lib, s, a + b)
    ensures Scheduler.Run(lib, s, a + b) == Scheduler.Run(lib, Scheduler.Run(lib, s, a), b)
    decreases |a|
  {
    hide Scheduler.Enabled, Scheduler.Step;
    if a == [] {
      assert a + b == b;
    } else {
      assert (a + b)[0] == a[0] && (a + b)[1..] == a[1..] + b;
      RunParts(lib, Scheduler.Step(lib, s, a[0]), a[1..], b);
    }
  }

  /** Records that are not this task's are skipped one by one. */
  lemma {:induction false} SkipsTo(lib: Library, s: Scheduler.State, route: ChatIdentity, order: seq<string>, k: nat)
    requires k <= |order| && Scheduler.At(s, route) && s.dispatchers[route] == Scheduler.Running(order, false)
    ensures Scheduler.CanRun(lib, s, Skips(route, k))
    ensures Scheduler.Run(lib, s, Skips(route, k))
            == s.(dispatchers := s.dispatchers[route := Scheduler.Running(order[k..], false)])
    decreases k
  {
    if k == 0 {
      assert s.dispatchers[route := Scheduler.Running(order[0..], false)] == s.dispatchers;
    } else {
      var skip := Scheduler.Skip(route);
      assert Skips(route, k)[0] == skip && Skips(route, k)[1..] == Skips(route, k - 1);
      var next := Scheduler.Step(lib, s, skip);
      assert next == s.(dispatchers := s.dispatchers[route := Scheduler.Running(order[1..], false)]);
      SkipsTo(lib, next, route, order[1..], k - 1);
      assert order[1..][k - 1..] == order[k..];
      assert next.dispatchers[route := Scheduler.Running(order[k..], false)]
          == s.dispatchers[route := Scheduler.Running(order[k..], false)];
    }
  }

  lemma PendingAt(records: map<string, Record>, route: ChatIdentity, order: seq<string>, k: nat)
    requires Enumerates(order, PendingOn(records, route)) && k < |order|
    ensures order[k] in records && records[order[k]].Identity() == route
  {
    assert order[k] in (set id | id in order);
    assert order[k] in PendingOn(records, route);
  }

  /** A task that waits in a chat where nothing is in flight can be dispatched: with a free
      place, one turn of a dispatcher brings exactly it into flight, with what it is sent
      under, whatever waits before it. */
  lemma TaskIsDispatched(lib: Library, s: Scheduler.State, route: ChatIdentity, order: seq<string>, k: nat,
                         requestID: string, sessionID: string, runtimeID: string, epoch: nat)
    requires Scheduler.SchedulerInv(lib, s) && !s.store.closed && !Scheduler.At(s, route) && s.slots < 8
    requires Enumerates(order, PendingOn(s.store.records, route)) && k < |order|
    requires !Scheduler.AnyInFlight(s.store, route)
    requires order[k] in s.store.records
    requires var r := s.store.records[order[k]]; r.kind == "task" && r.state.Received?
    ensures var id, ops := order[k], Turn(route, order, k, requestID, sessionID, runtimeID, epoch);
            && Scheduler.CanRun(lib, s, ops)
            && var end := Scheduler.Run(lib, s, ops);
               && Moved(s.store, end.store, id, Dispatching) && Scheduler.At(end, route)
               && end.dispatchers[route] == Scheduler.Sent(id)
               && end.store.records[id].requestID == requestID && end.store.records[id].sessionID == sessionID
               && end.store.records[id].dispatchRuntimeID == runtimeID
               && end.store.records[id].dispatchSessionEpoch == epoch
  {
    hide Inv, Kept, Update, Moved, Scheduler.AnyInFlight, Scheduler.OneTask, Scheduler.AllStages, Scheduler.CanRun,
         Scheduler.Run, Enumerates;
    PendingAt(s.store.records, route, order, k);
    var activate, list := Scheduler.Activate(route), Scheduler.List(route, order, false);
    var skips := Skips(route, k);
    var send := [Scheduler.StartTask(route), Scheduler.PublishTask(route, requestID, sessionID, runtimeID, epoch)];
    RunTwo(lib, s, activate, list);
    var listed := Scheduler.Run(lib, s, [activate, list]);
    SkipsTo(lib, listed, route, order, k);
    var there := Scheduler.Run(lib, listed, skips);
    assert there.store == s.store && there.dispatchers[route].rest[0] == order[k];
    TaskIsPublished(lib, there, route, requestID, sessionID, runtimeID, epoch);
    RunParts(lib, listed, skips, send);
    RunParts(lib, s, [activate, list], skips + send);
  }

  /** A task that was sent and refused is given back, and its chat is free again. */
  lemma RefusedIsGivenBack(lib: Library, s: Scheduler.State, route: ChatIdentity)
    requires !s.store.closed && Scheduler.At(s, route)
    requires s.dispatchers[route].Sent?
    requires var id := s.dispatchers[route].id; Stored(s.store, id) && s.store.records[id].state.Dispatching?
    ensures var id, back := s.dispatchers[route].id, Scheduler.Step(lib, s, Scheduler.RevertTask(route));
            Moved(s.store, back.store, id, Received) && back.dispatchers == s.dispatchers - {route}
  {
    hide Kept, Update, Moved;
    Changed(lib, s.store, s.dispatchers[route].id, {Dispatching}, Scheduler.Reverting());
  }

  /** A task whose sending came to no result is uncertain, and its chat is free again. */
  lemma UnansweredIsUnknown(lib: Library, s: Scheduler.State, route: ChatIdentity, reason: string)
    requires !s.store.closed && !Reserved(reason) && Scheduler.At(s, route)
    requires s.dispatchers[route].Sent?
    requires var id := s.dispatchers[route].id; Stored(s.store, id) && s.store.records[id].state.Dispatching?
    ensures var id, left := s.dispatchers[route].id, Scheduler.Step(lib, s, Scheduler.FinishTask(route, reason));
            && Moved(s.store, left.store, id, Unknown) && left.store.records[id].reason == reason
            && left.dispatchers == s.dispatchers - {route}
  {
    hide Kept, Update, Moved;
    var id := s.dispatchers[route].id;
    Changed(lib, s.store, id, Scheduler.PENDING_STATES, Scheduler.Finishing(Unknown, reason));
    SettledReason(lib, Scheduler.Finishing(Unknown, reason)(s.store.records[id]).value.(updatedAt := s.store.now));
  }

  /** A control that is taken up is finished with the state and the reason that it came to. */
  lemma ControlIsSettled(lib: Library, s: Scheduler.State, route: ChatIdentity, state: State, reason: string)
    requires !s.store.closed && !Reserved(reason) && !state.Unset?
    requires Scheduler.At(s, route) && s.dispatchers[route].InControl?
    requires var id := s.dispatchers[route].id;
             Stored(s.store, id) && s.store.records[id].state in Scheduler.PENDING_STATES
    ensures var id, done := s.dispatchers[route].id,
              Scheduler.Step(lib, s, Scheduler.FinishControl(route, state, reason));
            Moved(s.store, done.store, id, state) && done.store.records[id].reason == reason
            && done.dispatchers == s.dispatchers
  {
    hide Kept, Update, Moved;
    var id := s.dispatchers[route].id;
    Changed(lib, s.store, id, Scheduler.PENDING_STATES, Scheduler.Finishing(state, reason));
    SettledReason(lib, Scheduler.Finishing(state, reason)(s.store.records[id]).value.(updatedAt := s.store.now));
  }

  lemma SettledReason(lib: Library, r: Record)
    ensures Kept(lib, r).reason == r.reason
  {
  }
}
