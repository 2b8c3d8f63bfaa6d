/** Dispatching the pending records of each chat route
    (internal/gateway/im_ingress_dispatch.go), on top of the ingress store.

    A dispatcher's steps, and every other operation on the store, interleave. */
module Scheduler {
  import opened IngressTypes
  import opened IngressSpec
  import opened IngressInvariant
  import opened IngressRuns

  const SLOTS: nat := 8

  /** Where the dispatcher of a route is. `rest` are the records it has not looked
      at yet, from the listing it took. */
  datatype Stage =
    | Listing
    | Running(rest: seq<string>, blocked: bool)
    | InControl(id: string, rest: seq<string>)
    | Rechecking(rest: seq<string>)
    | InTask(id: string)
    | Sent(id: string)

  /** Routes with a dispatcher are the active ones; `slots` counts those and the
      dispatchers that have left but not yet given their slot back. */
  datatype State = State(store: Store, dispatchers: map<ChatIdentity, Stage>, slots: nat)

  ghost predicate AnyInFlight(s: Store, route: ChatIdentity) {
    exists id <- s.records :: s.records[id].Identity() == route && IngressSpec.InFlight(s.records[id].state)
  }

  // State changes the dispatcher makes

  const PENDING_STATES: set<IngressTypes.State> := {Received, Dispatching, Unknown}

  function Publishing(requestID: string, sessionID: string, runtimeID: string, epoch: nat): Change {
    (r: Record) => Some(r.(state := Dispatching, requestID := requestID, sessionID := sessionID,
                           dispatchRuntimeID := runtimeID, dispatchSessionEpoch := epoch))
  }

  /** finish; the reasons are never those reserved to the store. */
  function Finishing(state: IngressTypes.State, reason: string): Change {
    (r: Record) => if state.Unset? || Reserved(reason) then None else Some(r.(state := state, reason := reason))
  }

  function Reverting(): Change {
    (r: Record) => Some(r.(state := Received))
  }

  /** The change of a receipt (commitInputReceipt). */
  function Receiving(state: IngressTypes.State, status: string): Change {
    (r: Record) => if state.Unset? then None else Some(r.(state := state, receiptStatus := status))
  }

  /** No record comes into flight: the store operations of everybody but dispatchers. */
  ghost predicate Calm(op: IngressSpec.Op) {
    && !op.OpClose?
    && (op.OpUpdate? ==>
          forall r: Record :: r.state in op.allowed && op.change(r).Some? ==>
            (IngressSpec.InFlight(op.change(r).value.state) ==> IngressSpec.InFlight(r.state)))
  }

  /** Receipts and question receipts are calm. */
  lemma ReceiptsAreCalm(id: string, state: IngressTypes.State, status: string)
    ensures Calm(OpUpdate(id, {Dispatching, Unknown}, Receiving(state, status))) && Lawful(Receiving(state, status))
  {
  }

  datatype Op =
    | Other(op: IngressSpec.Op)
    | Activate(route: ChatIdentity)
    | List(route: ChatIdentity, order: seq<string>, held: bool)
    | Skip(route: ChatIdentity)
    | StartControl(route: ChatIdentity)
    | PublishControl(route: ChatIdentity, requestID: string, sessionID: string, runtimeID: string, epoch: nat)
    | FinishControl(route: ChatIdentity, state: IngressTypes.State, reason: string)
    | EndControl(route: ChatIdentity)
    | Recheck(route: ChatIdentity, held: bool)
    | StartTask(route: ChatIdentity)
    | PublishTask(route: ChatIdentity, requestID: string, sessionID: string, runtimeID: string, epoch: nat)
    | RevertTask(route: ChatIdentity)
    | FinishTask(route: ChatIdentity, reason: string)
    | Leave(route: ChatIdentity)
    | Release

  predicate At(s: State, route: ChatIdentity) {
    route in s.dispatchers
  }

  /** The next record of a running dispatcher, as a kind of record. */
  predicate NextIs(s: State, route: ChatIdentity, kind: string) {
    && At(s, route) && s.dispatchers[route].Running? && s.dispatchers[route].rest != []
    && var id := s.dispatchers[route].rest[0];
       id in s.store.records && s.store.records[id].Identity() == route && s.store.records[id].kind == kind
  }

  ghost predicate Enabled(s: State, op: Op) {
    match op
    case Other(op) => Allowed(s.store, op) && Calm(op)
    case Activate(route) => !At(s, route) && s.slots < SLOTS
    case List(route, order, _) => At(s, route) && s.dispatchers[route].Listing?
      && Enumerates(order, PendingOn(s.store.records, route))
    case Skip(route) => At(s, route) && s.dispatchers[route].Running? && s.dispatchers[route].rest != []
    case StartControl(route) => NextIs(s, route, "control")
    case PublishControl(route, _, _, _, _) => At(s, route) && s.dispatchers[route].InControl?
    case FinishControl(route, _, _) => At(s, route) && s.dispatchers[route].InControl?
    case EndControl(route) => At(s, route) && s.dispatchers[route].InControl?
    case Recheck(route, _) => At(s, route) && s.dispatchers[route].Rechecking?
    case StartTask(route) => NextIs(s, route, "task") && !s.dispatchers[route].blocked
    case PublishTask(route, _, _, _, _) => At(s, route) && s.dispatchers[route].InTask?
    case RevertTask(route) => At(s, route) && s.dispatchers[route].Sent?
    case FinishTask(route, _) => At(s, route) && s.dispatchers[route].Sent?
    case Leave(route) => At(s, route)
    case Release => s.slots > |s.dispatchers|
  }

  ghost function Step(lib: Library, s: State, op: Op): State
    requires Enabled(s, op)
  {
    match op
    case Other(op) => s.(store := IngressSpec.Step(lib, s.store, op))
    case Activate(route) => s.(dispatchers := s.dispatchers[route := Listing], slots := s.slots + 1)
    case List(route, order, held) => s.(dispatchers := s.dispatchers[route := Running(order, held
        || AnyInFlight(s.store, route))])
    case Skip(route) =>
      s.(dispatchers := s.dispatchers[route := Running(s.dispatchers[route].rest[1..], s.dispatchers[route].blocked)])
    case StartControl(route) =>
      var rest := s.dispatchers[route].rest;
      s.(dispatchers := s.dispatchers[route := InControl(rest[0], rest[1..])])
    case PublishControl(route, requestID, sessionID, runtimeID, epoch) =>
      s.(store := Update(lib, s.store, s.dispatchers[route].id, {Received},
                         Publishing(requestID, sessionID, runtimeID, epoch)).0)
    case FinishControl(route, state, reason) =>
      s.(store := Update(lib, s.store, s.dispatchers[route].id, PENDING_STATES, Finishing(state, reason)).0)
    case EndControl(route) => s.(dispatchers := s.dispatchers[route := Rechecking(s.dispatchers[route].rest)])
    case Recheck(route, held) =>
      s.(dispatchers := s.dispatchers[route := Running(s.dispatchers[route].rest, held || AnyInFlight(s.store, route))])
    case StartTask(route) => s.(dispatchers := s.dispatchers[route := InTask(s.dispatchers[route].rest[0])])
    case PublishTask(route, requestID, sessionID, runtimeID, epoch) =>
      var id := s.dispatchers[route].id;
      var (store, error) := Update(lib, s.store, id, {Received}, Publishing(requestID, sessionID, runtimeID, epoch));
      if error == NoError then s.(store := store, dispatchers := s.dispatchers[route := Sent(id)])
      else s.(store := store, dispatchers := s.dispatchers - {route})
    case RevertTask(route) =>
      s.(store := Update(lib, s.store, s.dispatchers[route].id, {Dispatching}, Reverting()).0,
         dispatchers := s.dispatchers - {route})
    case FinishTask(route, reason) =>
      s.(store := Update(lib, s.store, s.dispatchers[route].id, PENDING_STATES, Finishing(Unknown, reason)).0,
         dispatchers := s.dispatchers - {route})
    case Leave(route) => s.(dispatchers := s.dispatchers - {route})
    case Release => s.(slots := s.slots - 1)
  }

  // What the other store operations cannot do

  /** A record in flight afterwards was the same record, in flight, before. */
  ghost predicate NoneEnters(before: Store, after: Store) {
    forall id <- after.records :: IngressSpec.InFlight(after.records[id].state) ==>
      id in before.records && IngressSpec.InFlight(before.records[id].state)
        && SameOrigin(before.records[id], after.records[id])
  }

  lemma {:induction false} ResavedCalm(lib: Library, s: Store, order: seq<string>, change: Change)
    requires Inv(lib, s) && PendingOnly(change)
    requires forall r: Record :: change(r).Some? && IngressSpec.InFlight(change(r).value.state) ==>
               IngressSpec.InFlight(r.state)
    ensures NoneEnters(s, Resaved(lib, s, order, change))
    decreases |order|
  {
    hide Inv, Kept, NoneEnters, Saved;
    NamedByID(lib, s);
    if order == [] {
      SameCalm(s, s);
    } else {
      var id := order[0];
      if id in s.records && change(s.records[id]).Some? {
        var r := change(s.records[id]).value.(updatedAt := s.now);
        SavedInv(lib, s, r);
        SavedCalm(lib, s, r);
        var saved := Saved(lib, s, r);
        ResavedCalm(lib, saved, order[1..], change);
        CalmTwice(s, saved, Resaved(lib, saved, order[1..], change));
      } else {
        ResavedCalm(lib, s, order[1..], change);
      }
    }
  }

  lemma SameCalm(s: Store, s': Store)
    requires s'.records == s.records
    ensures NoneEnters(s, s')
  {
  }

  lemma SavedCalm(lib: Library, s: Store, r: Record)
    requires r.recordID in s.records && SameOrigin(s.records[r.recordID], r)
    requires IngressSpec.InFlight(r.state) ==> IngressSpec.InFlight(s.records[r.recordID].state)
    ensures NoneEnters(s, Saved(lib, s, r))
  {
    hide Kept;
    KeptSame(lib, r);
  }

  lemma CalmTwice(a: Store, b: Store, c: Store)
    requires NoneEnters(a, b) && NoneEnters(b, c)
    ensures NoneEnters(a, c)
  {
  }

  lemma DecidedState(lib: Library, s: Store, prepared: Record, cursor: Option<Cursor>, revision: string)
    requires cursor.Some? ==> cursor.value.generation > 0
    requires prepared.state.Received? || prepared.state.Rejected?
    ensures var v := Decide(lib, s, prepared, cursor, revision);
            v.New? ==> (v.record.state.Received? || v.record.state.Rejected?) && v.record.recordID == prepared.recordID
  {
    hide CheckCursor, AtCapacity, Record.AccountKey, Record.BusinessKey, Record.SemanticKey;
  }

  lemma AcceptCalm(lib: Library, s: Store, q: Request)
    requires Inv(lib, s) && Allowed(s, OpAccept(q))
    ensures NoneEnters(s, Accept(lib, s, q).0)
  {
    hide Inv, Pruned, InvalidInput, Prepare, Conclude, NoneEnters;
    var k := q.input.Identity();
    SameCalm(s, s);
    PrunedCalm(s, k, s.issued + {q.id, q.revision});
    if InvalidInput(q.input, q.cursor).None? && Prepare(q.input, q.id, s.now).In? {
      PreparedMeaning(q, s.now);
      var pruned := Pruned(s, k).(issued := s.issued + {q.id, q.revision});
      ConcludeCalm(lib, pruned, q, Prepare(q.input, q.id, s.now).r);
      CalmTwice(s, pruned, Conclude(lib, pruned, q, Prepare(q.input, q.id, s.now).r).0);
    }
  }

  lemma PrunedCalm(s: Store, k: ChatIdentity, issued: set<string>)
    ensures NoneEnters(s, Pruned(s, k).(issued := issued))
  {
    hide Pruned;
    PrunedFrame(s, k);
  }

  lemma ConcludeCalm(lib: Library, s: Store, q: Request, r: Record)
    requires (r.state.Received? || r.state.Rejected?) && (q.cursor.Some? ==> q.cursor.value.generation > 0)
    ensures NoneEnters(s, Conclude(lib, s, q, r).0)
  {
    hide Decide, Published, NoneEnters;
    DecidedState(lib, s, r, q.cursor, q.revision);
    match Decide(lib, s, r, q.cursor, q.revision)
    case New(record, route, _) => PublishedCalm(lib, s, record, route, q.cursor);
    case _ => SameCalm(s, Conclude(lib, s, q, r).0);
  }

  lemma PublishedCalm(lib: Library, s: Store, r: Record, route: Route, cursor: Option<Cursor>)
    requires r.state.Received? || r.state.Rejected?
    ensures NoneEnters(s, Published(lib, s, r, route, cursor))
  {
    hide Kept, Record.AccountKey, Record.BusinessKey, Record.SemanticKey;
    KeptSame(lib, r);
  }

  lemma UpdateCalm(lib: Library, s: Store, op: IngressSpec.Op)
    requires Inv(lib, s) && Allowed(s, op) && op.OpUpdate? && Calm(op)
    ensures NoneEnters(s, IngressSpec.Step(lib, s, op))
  {
    hide Inv, NoneEnters, Saved;
    NamedByID(lib, s);
    SameCalm(s, s);
    if op.id in s.records && s.records[op.id].state in op.allowed && op.change(s.records[op.id]).Some? {
      SavedCalm(lib, s, op.change(s.records[op.id]).value.(updatedAt := s.now));
    }
  }

  lemma EnsureCalm(lib: Library, s: Store, op: IngressSpec.Op)
    requires Inv(lib, s) && Allowed(s, op) && op.OpEnsure?
    ensures NoneEnters(s, IngressSpec.Step(lib, s, op))
  {
    hide Inv, Pruned, Resaved, PendingOn;
    var OpEnsure(route, digest, workspace, session, revision, order) := op;
    PrunedInv(lib, s, route);
    PrunedFrame(s, route);
    IssuedInv(lib, Pruned(s, route), {revision});
    RouteChangesLawful("", "");
    ResavedCalm(lib, Pruned(s, route).(issued := s.issued + {revision}), order, Quarantining());
  }

  /** Whatever the rest of the gateway does to the store, no record comes into flight. */
  lemma OthersCalm(lib: Library, s: Store, op: IngressSpec.Op)
    requires Inv(lib, s) && Allowed(s, op) && Calm(op)
    ensures NoneEnters(s, IngressSpec.Step(lib, s, op))
  {
    hide Inv, Accept, Update, EnsureRoute, Resaved, PendingOn, Lawful, CheckCursor;
    match op
    case OpAccept(q) => AcceptCalm(lib, s, q);
    case OpUpdate(_, _, _) => UpdateCalm(lib, s, op);
    case OpEnsure(_, _, _, _, _, _) => EnsureCalm(lib, s, op);
    case OpBind(route, revision, session, order) =>
      RouteChangesLawful(revision, session);
      ResavedCalm(lib, s, order, Pinning(revision, session));
    case _ =>
  }

  // The invariant

  /** The dispatcher took this record for one of its route's. */
  ghost predicate Known(s: Store, id: string, route: ChatIdentity, kind: string) {
    id in s.issued && (id in s.records ==> s.records[id].Identity() == route && s.records[id].kind == kind)
  }

  ghost predicate StageOK(s: Store, route: ChatIdentity, stage: Stage) {
    match stage
    case Running(_, blocked) => blocked || !AnyInFlight(s, route)
    case InControl(id, _) => Known(s, id, route, "control")
    case InTask(id) => Known(s, id, route, "task") && !AnyInFlight(s, route)
    case Sent(id) =>
      && Known(s, id, route, "task")
      && forall x <- s.records :: s.records[x].Identity() == route && IngressSpec.InFlight(s.records[x].state) ==>
           x == id
    case _ => true
  }

  /** At most one task of a route is dispatching or unknown. */
  ghost predicate OneTask(s: Store) {
    forall a <- s.records, b <- s.records ::
      (s.records[a].kind == "task" && s.records[b].kind == "task" && s.records[a].Identity() == s.records[b].Identity()
       && IngressSpec.InFlight(s.records[a].state) && IngressSpec.InFlight(s.records[b].state)) ==> a == b
  }

  ghost predicate AllStages(s: Store, dispatchers: map<ChatIdentity, Stage>) {
    forall route <- dispatchers :: StageOK(s, route, dispatchers[route])
  }

  ghost predicate SchedulerInv(lib: Library, s: State) {
    && Inv(lib, s.store) && OneTask(s.store) && AllStages(s.store, s.dispatchers)
    && |s.dispatchers| <= s.slots <= SLOTS
  }

  /** Records only come from acceptance, under identifiers never used before. */
  ghost predicate Descends(before: Store, after: Store) {
    && before.issued <= after.issued
    && forall id <- after.records ::
         if id in before.records then SameOrigin(before.records[id], after.records[id]) else id !in before.issued
  }

  lemma AcceptDescends(lib: Library, s: Store, q: Request)
    requires Inv(lib, s) && Allowed(s, OpAccept(q))
    ensures forall id <- Accept(lib, s, q).0.records :: id in s.records || id == q.id
  {
    hide Inv, Pruned, InvalidInput, Prepare, Decide, Kept, Publishable, Record.AccountKey, Record.BusinessKey,
         Record.SemanticKey;
    PrunedFrame(s, q.input.Identity());
    if InvalidInput(q.input, q.cursor).None? && Prepare(q.input, q.id, s.now).In? {
      PreparedMeaning(q, s.now);
      DecidedState(lib, Pruned(s, q.input.Identity()).(issued := s.issued + {q.id, q.revision}),
                   Prepare(q.input, q.id, s.now).r, q.cursor, q.revision);
    }
  }

  lemma StepDescends(lib: Library, s: Store, op: IngressSpec.Op)
    requires Inv(lib, s) && Allowed(s, op) && !op.OpClose?
    ensures Descends(s, IngressSpec.Step(lib, s, op))
  {
    hide Inv, IngressSpec.Step, Allowed, SameOrigin, IngressRuns.Expired;
    StepClock(lib, s, op);
    var after := IngressSpec.Step(lib, s, op);
    forall id | id in after.records
      ensures if id in s.records then SameOrigin(s.records[id], after.records[id]) else id !in s.issued
    {
      if id in s.records {
        StepContinues(lib, s, op, id);
      } else {
        FreshlyIssued(lib, s, op, id);
      }
    }
  }

  lemma EnsureKeys(lib: Library, s: Store, op: IngressSpec.Op)
    requires Inv(lib, s) && Allowed(s, op) && op.OpEnsure?
    ensures IngressSpec.Step(lib, s, op).records.Keys <= s.records.Keys
  {
    hide Inv, Resaved, Pruned, IngressSpec.Step, Allowed;
    var OpEnsure(route, _, _, _, revision, order) := op;
    PrunedInv(lib, s, route);
    PrunedFrame(s, route);
    IssuedInv(lib, Pruned(s, route), {revision});
    RouteChangesLawful("", "");
    EnsuredRecords(lib, s, op);
    ResavedInv(lib, Pruned(s, route).(issued := s.issued + {revision}), order, Quarantining());
  }

  lemma NoNewKeys(lib: Library, s: Store, op: IngressSpec.Op)
    requires Inv(lib, s) && Allowed(s, op) && !op.OpAccept?
    ensures IngressSpec.Step(lib, s, op).records.Keys <= s.records.Keys
  {
    hide Inv, Resaved, EnsureRoute, Pruned, CheckCursor, PendingOn, Kept;
    NamedByID(lib, s);
    match op
    case OpEnsure(_, _, _, _, _, _) => EnsureKeys(lib, s, op);
    case OpBind(_, revision, session, order) =>
      RouteChangesLawful(revision, session);
      ResavedInv(lib, s, order, Pinning(revision, session));
    case OpUpdate(target, _, change) =>
      if target in s.records && change(s.records[target]).Some? {
        KeptSame(lib, change(s.records[target]).value.(updatedAt := s.now));
      }
    case _ =>
  }

  lemma FreshlyIssued(lib: Library, s: Store, op: IngressSpec.Op, id: string)
    requires Inv(lib, s) && Allowed(s, op) && id !in s.records
    ensures id in IngressSpec.Step(lib, s, op).records ==> id !in s.issued
  {
    hide Inv, Accept;
    if op.OpAccept? {
      AcceptDescends(lib, s, op.q);
    } else {
      NoNewKeys(lib, s, op);
    }
  }

  // One stage through a step of the store

  lemma StageKept(before: Store, after: Store, route: ChatIdentity, stage: Stage)
    requires StageOK(before, route, stage) && Descends(before, after) && NoneEnters(before, after)
    ensures StageOK(after, route, stage)
  {
  }

  lemma OneTaskKept(before: Store, after: Store)
    requires OneTask(before) && NoneEnters(before, after)
    ensures OneTask(after)
  {
    forall a, b | a in after.records && b in after.records &&
                  after.records[a].kind == "task" && after.records[b].kind == "task"
                  && after.records[a].Identity() == after.records[b].Identity()
                  && IngressSpec.InFlight(after.records[a].state) && IngressSpec.InFlight(after.records[b].state)
      ensures a == b
    {
      assert SameOrigin(before.records[a], after.records[a]) && SameOrigin(before.records[b], after.records[b]);
    }
  }

  /** Only the record `id`, if any, comes into flight. */
  ghost predicate OnlyEnters(before: Store, after: Store, id: string) {
    forall x <- after.records :: x != id && IngressSpec.InFlight(after.records[x].state) ==>
      x in before.records && IngressSpec.InFlight(before.records[x].state)
        && SameOrigin(before.records[x], after.records[x])
  }

  lemma LawfulChanges(requestID: string, sessionID: string, runtimeID: string, epoch: nat, state: IngressTypes.State,
                      reason: string)
    ensures Lawful(Publishing(requestID, sessionID, runtimeID, epoch)) && Lawful(Finishing(state, reason))
            && Lawful(Reverting())
  {
  }

  lemma SameEnters(s: Store, id: string)
    ensures Descends(s, s) && OnlyEnters(s, s, id)
  {
  }

  lemma SavedEnters(lib: Library, s: Store, r: Record)
    requires r.recordID in s.records && SameOrigin(s.records[r.recordID], r)
    ensures Descends(s, Saved(lib, s, r)) && OnlyEnters(s, Saved(lib, s, r), r.recordID)
  {
    hide Kept;
    KeptSame(lib, r);
  }

  lemma DispatcherUpdate(lib: Library, s: Store, id: string, allowed: set<IngressTypes.State>, change: Change)
    requires Inv(lib, s) && Lawful(change) && forall state <- allowed :: !Final(state)
    ensures var after := Update(lib, s, id, allowed, change).0;
            && Inv(lib, after) && Descends(s, after) && OnlyEnters(s, after, id)
  {
    hide Inv, Saved, Descends, OnlyEnters;
    UpdateInv(lib, s, id, allowed, change);
    NamedByID(lib, s);
    SameEnters(s, id);
    if id in s.records && change(s.records[id]).Some? {
      SavedEnters(lib, s, change(s.records[id]).value.(updatedAt := s.now));
    }
  }

  /** Other routes do not notice what a dispatcher does on its own. */
  lemma OtherStage(before: Store, after: Store, id: string, mine: ChatIdentity, kind: string, route: ChatIdentity,
                   stage: Stage)
    requires StageOK(before, route, stage) && Descends(before, after) && OnlyEnters(before, after, id)
    requires Known(before, id, mine, kind) && route != mine
    ensures StageOK(after, route, stage)
  {
    hide Inv;
  }

  /** A control in flight is no task. */
  lemma ControlKeepsOneTask(before: Store, after: Store, id: string, route: ChatIdentity)
    requires OneTask(before) && Descends(before, after) && OnlyEnters(before, after, id)
             && Known(before, id, route, "control")
    ensures OneTask(after)
  {
  }

  /** A task that comes into flight is the only record of its route in flight. */
  lemma TaskKeepsOneTask(before: Store, after: Store, id: string, route: ChatIdentity)
    requires OneTask(before) && Descends(before, after) && OnlyEnters(before, after, id)
             && Known(before, id, route, "task")
    requires forall x <- before.records ::
               before.records[x].Identity() == route && IngressSpec.InFlight(before.records[x].state) ==> x == id
    ensures OneTask(after) && Known(after, id, route, "task")
    ensures forall x <- after.records ::
              after.records[x].Identity() == route && IngressSpec.InFlight(after.records[x].state) ==> x == id
  {
  }

  lemma OthersKeep(lib: Library, s: State, op: IngressSpec.Op)
    requires SchedulerInv(lib, s) && Allowed(s.store, op) && Calm(op)
    ensures SchedulerInv(lib, Step(lib, s, Other(op)))
  {
    hide Inv, IngressSpec.Step, Allowed, Calm, Known, OneTask, StageOK, NoneEnters, Descends;
    CalmNotClose(op);
    StepInv(lib, s.store, op);
    OthersCalm(lib, s.store, op);
    StepDescends(lib, s.store, op);
    var after := IngressSpec.Step(lib, s.store, op);
    OneTaskKept(s.store, after);
    forall route | route in s.dispatchers
      ensures StageOK(after, route, s.dispatchers[route])
    {
      StageKept(s.store, after, route, s.dispatchers[route]);
    }
  }

  lemma CalmNotClose(op: IngressSpec.Op)
    requires Calm(op)
    ensures !op.OpClose?
  {
  }

  /** A dispatcher's update of its own record, with the stage it goes on with. */
  lemma DispatcherKeeps(lib: Library, s: State, route: ChatIdentity, kind: string, id: string,
                        allowed: set<IngressTypes.State>, change: Change, next: Option<Stage>)
    requires SchedulerInv(lib, s) && At(s, route) && Known(s.store, id, route, kind)
    requires Lawful(change) && forall state <- allowed :: !Final(state)
    requires kind == "control" || (kind == "task" &&
               forall x <- s.store.records ::
                 s.store.records[x].Identity() == route && IngressSpec.InFlight(s.store.records[x].state) ==> x == id)
    requires var after := Update(lib, s.store, id, allowed, change).0;
             next.Some? ==> StageOK(after, route, next.value)
    ensures var after := Update(lib, s.store, id, allowed, change).0;
            var dispatchers := if next.Some? then s.dispatchers[route := next.value] else s.dispatchers - {route};
            SchedulerInv(lib, State(after, dispatchers, s.slots))
  {
    hide Inv, Update, Known, OneTask, StageOK, OnlyEnters, Descends, Lawful;
    DispatcherUpdate(lib, s.store, id, allowed, change);
    var after := Update(lib, s.store, id, allowed, change).0;
    if kind == "control" {
      ControlKeepsOneTask(s.store, after, id, route);
    } else {
      TaskKeepsOneTask(s.store, after, id, route);
    }
    forall other | other in s.dispatchers && other != route
      ensures StageOK(after, other, s.dispatchers[other])
    {
      OtherStage(s.store, after, id, route, kind, other, s.dispatchers[other]);
    }
    var dispatchers := if next.Some? then s.dispatchers[route := next.value] else s.dispatchers - {route};
    Fewer(s.dispatchers, dispatchers);
  }

  lemma Fewer(before: map<ChatIdentity, Stage>, after: map<ChatIdentity, Stage>)
    requires after.Keys <= before.Keys
    ensures |after| <= |before|
  {
    assert before.Keys == after.Keys + (before.Keys - after.Keys);
  }

  /** Knowing a record is kept through the dispatcher's own update. */
  lemma KnownAfter(lib: Library, s: Store, route: ChatIdentity, kind: string, id: string,
                   allowed: set<IngressTypes.State>, change: Change)
    requires Inv(lib, s) && Known(s, id, route, kind) && Lawful(change) && forall state <- allowed :: !Final(state)
    ensures Known(Update(lib, s, id, allowed, change).0, id, route, kind)
  {
    hide Inv, Update, Lawful, OnlyEnters;
    DispatcherUpdate(lib, s, id, allowed, change);
  }

  lemma ControlStep(lib: Library, s: State, op: Op)
    requires SchedulerInv(lib, s) && Enabled(s, op) && (op.PublishControl? || op.FinishControl?)
    ensures SchedulerInv(lib, Step(lib, s, op))
  {
    hide Inv, Update, Known, OneTask, Lawful, AllStages;
    var route := op.route;
    var stage := s.dispatchers[route];
    MyStage(s, route);
    if op.PublishControl? {
      LawfulChanges(op.requestID, op.sessionID, op.runtimeID, op.epoch, Received, "");
      KnownAfter(lib, s.store, route, "control", stage.id, {Received},
                 Publishing(op.requestID, op.sessionID, op.runtimeID, op.epoch));
      DispatcherKeeps(lib, s, route, "control", stage.id, {Received},
                      Publishing(op.requestID, op.sessionID, op.runtimeID, op.epoch), Some(stage));
    } else {
      LawfulChanges("", "", "", 0, op.state, op.reason);
      KnownAfter(lib, s.store, route, "control", stage.id, PENDING_STATES, Finishing(op.state, op.reason));
      DispatcherKeeps(lib, s, route, "control", stage.id, PENDING_STATES, Finishing(op.state, op.reason), Some(stage));
    }
    assert s.dispatchers[route := stage] == s.dispatchers;
  }

  lemma MyStage(s: State, route: ChatIdentity)
    requires AllStages(s.store, s.dispatchers) && route in s.dispatchers
    ensures StageOK(s.store, route, s.dispatchers[route])
  {
  }

  lemma TaskStep(lib: Library, s: State, op: Op)
    requires SchedulerInv(lib, s) && Enabled(s, op) && (op.PublishTask? || op.RevertTask? || op.FinishTask?)
    ensures SchedulerInv(lib, Step(lib, s, op))
  {
    hide Inv, Update, Known, OneTask, Lawful, AllStages;
    var route := op.route;
    var stage := s.dispatchers[route];
    MyStage(s, route);
    if op.PublishTask? {
      var change := Publishing(op.requestID, op.sessionID, op.runtimeID, op.epoch);
      LawfulChanges(op.requestID, op.sessionID, op.runtimeID, op.epoch, Received, "");
      TaskAfter(lib, s.store, route, stage.id, {Received}, change);
      DispatcherKeeps(lib, s, route, "task", stage.id, {Received}, change,
                      if Update(lib, s.store, stage.id, {Received}, change).1 == NoError then Some(Sent(stage.id))
                        else None);
    } else if op.RevertTask? {
      LawfulChanges("", "", "", 0, Received, "");
      DispatcherKeeps(lib, s, route, "task", stage.id, {Dispatching}, Reverting(), None);
    } else {
      LawfulChanges("", "", "", 0, Unknown, op.reason);
      DispatcherKeeps(lib, s, route, "task", stage.id, PENDING_STATES, Finishing(Unknown, op.reason), None);
    }
  }

  lemma TaskAfter(lib: Library, s: Store, route: ChatIdentity, id: string, allowed: set<IngressTypes.State>,
                  change: Change)
    requires Inv(lib, s) && OneTask(s) && Known(s, id, route, "task") && Lawful(change) && forall state <- allowed ::
               !Final(state)
    requires forall x <- s.records :: s.records[x].Identity() == route && IngressSpec.InFlight(s.records[x].state) ==>
               x == id
    ensures StageOK(Update(lib, s, id, allowed, change).0, route, Sent(id))
  {
    hide Inv, Update, Lawful, OnlyEnters, Descends, OneTask, Known;
    DispatcherUpdate(lib, s, id, allowed, change);
    TaskKeepsOneTask(s, Update(lib, s, id, allowed, change).0, id, route);
  }

  lemma StageReplaced(lib: Library, s: State, route: ChatIdentity, next: Stage)
    requires SchedulerInv(lib, s) && At(s, route) && StageOK(s.store, route, next)
    ensures SchedulerInv(lib, s.(dispatchers := s.dispatchers[route := next]))
  {
    hide Inv, OneTask, StageOK;
    Fewer(s.dispatchers, s.dispatchers[route := next]);
  }

  lemma DispatcherAdded(lib: Library, s: State, route: ChatIdentity)
    requires SchedulerInv(lib, s) && !At(s, route) && s.slots < SLOTS
    ensures SchedulerInv(lib, s.(dispatchers := s.dispatchers[route := Listing], slots := s.slots + 1))
  {
    hide Inv, OneTask, Known, AnyInFlight;
    assert s.dispatchers[route := Listing].Keys == s.dispatchers.Keys + {route};
  }

  lemma DispatcherLeft(lib: Library, s: State, route: ChatIdentity)
    requires SchedulerInv(lib, s)
    ensures SchedulerInv(lib, s.(dispatchers := s.dispatchers - {route}))
  {
    hide Inv, OneTask, StageOK;
    Fewer(s.dispatchers, s.dispatchers - {route});
  }

  /** Steps that change nothing in the store. */
  lemma LocalStep(lib: Library, s: State, op: Op)
    requires SchedulerInv(lib, s) && Enabled(s, op)
    requires op.List? || op.Skip? || op.StartControl? || op.EndControl? || op.Recheck? || op.StartTask?
    ensures SchedulerInv(lib, Step(lib, s, op))
  {
    hide Inv, OneTask, AnyInFlight, SchedulerInv;
    Parts(lib, s);
    MyStage(s, op.route);
    if op.StartControl? || op.StartTask? {
      IssuedRecord(lib, s.store, s.dispatchers[op.route].rest[0]);
    }
    StageReplaced(lib, s, op.route, Step(lib, s, op).dispatchers[op.route]);
  }

  lemma Parts(lib: Library, s: State)
    requires SchedulerInv(lib, s)
    ensures Inv(lib, s.store) && AllStages(s.store, s.dispatchers)
  {
    hide Inv, AllStages;
  }

  lemma IssuedRecord(lib: Library, s: Store, id: string)
    requires Inv(lib, s) && id in s.records
    ensures id in s.issued
  {
    hide HistoryOK, BusinessOK, SemanticOK, RoutesOK, SequencesOK, TasksOK, Bounded;
  }

  lemma SchedulerStep(lib: Library, s: State, op: Op)
    requires SchedulerInv(lib, s) && Enabled(s, op)
    ensures SchedulerInv(lib, Step(lib, s, op))
  {
    hide SchedulerInv, Inv, Update, StageOK, AnyInFlight, Known, Allowed, Calm;
    match op
    case Other(op) => EnabledOther(s, op); OthersKeep(lib, s, op);
    case PublishControl(_, _, _, _, _) => ControlStep(lib, s, op);
    case FinishControl(_, _, _) => ControlStep(lib, s, op);
    case PublishTask(_, _, _, _, _) => TaskStep(lib, s, op);
    case RevertTask(_) => TaskStep(lib, s, op);
    case FinishTask(_, _) => TaskStep(lib, s, op);
    case Activate(route) => DispatcherAdded(lib, s, route);
    case Leave(route) => DispatcherLeft(lib, s, route);
    case Release => SlotReturned(lib, s);
    case _ => LocalStep(lib, s, op);
  }

  lemma SlotReturned(lib: Library, s: State)
    requires SchedulerInv(lib, s) && s.slots > |s.dispatchers|
    ensures SchedulerInv(lib, s.(slots := s.slots - 1))
  {
    hide Inv, OneTask, AllStages;
  }

  lemma EnabledOther(s: State, op: IngressSpec.Op)
    requires Enabled(s, Other(op))
    ensures Allowed(s.store, op) && Calm(op)
  {
    hide Allowed, Calm;
  }

  // Runs

  ghost predicate CanRun(lib: Library, s: State, ops: seq<Op>)
    decreases |ops|
  {
    ops == [] || (Enabled(s, ops[0]) && CanRun(lib, Step(lib, s, ops[0]), ops[1..]))
  }

  ghost function Run(lib: Library, s: State, ops: seq<Op>): State
    requires CanRun(lib, s, ops)
    decreases |ops|
  {
    if ops == [] then s else Run(lib, Step(lib, s, ops[0]), ops[1..])
  }

  const START := State(EMPTY, map[], 0)

  lemma {:induction false} RunKeeps(lib: Library, s: State, ops: seq<Op>)
    requires SchedulerInv(lib, s) && CanRun(lib, s, ops)
    ensures SchedulerInv(lib, Run(lib, s, ops))
    decreases |ops|
  {
    hide SchedulerInv, Step, Enabled;
    if ops != [] {
      SchedulerStep(lib, s, ops[0]);
      RunKeeps(lib, Step(lib, s, ops[0]), ops[1..]);
    }
  }

  /** Over every run of dispatchers, receipts, route changes and acceptance, at most
      one task of a chat is dispatching or unknown, and at most eight dispatchers run. */
  lemma AtMostOneTask(lib: Library, ops: seq<Op>, a: string, b: string)
    requires CanRun(lib, START, ops)
    ensures var s := Run(lib, START, ops);
            && |s.dispatchers| <= 8
            && (a in s.store.records && b in s.store.records ==>
                var x, y := s.store.records[a], s.store.records[b];
                (x.kind == "task" && y.kind == "task" && x.Identity() == y.Identity()
                 && (x.state.Dispatching? || x.state.Unknown?) && (y.state.Dispatching? || y.state.Unknown?)) ==>
                      a == b)
  {
    hide Run, CanRun, Inv;
    EmptyInv(lib, EMPTY);
    RunKeeps(lib, START, ops);
  }

  /** When a task goes into flight, its route's dispatcher does it, no other record
      of the route is in flight, and the route is active under the very revision
      and authorization the task was accepted with. */
  lemma EntersAlone(lib: Library, s: State, op: Op, id: string)
    requires SchedulerInv(lib, s) && Enabled(s, op)
    requires var after := Step(lib, s, op).store.records;
             id in after && after[id].kind == "task" && IngressSpec.InFlight(after[id].state)
    requires !(id in s.store.records && IngressSpec.InFlight(s.store.records[id].state))
    ensures id in s.store.records
    ensures var route := s.store.records[id].Identity();
            && At(s, route) && !AnyInFlight(s.store, route)
            && route in s.store.routes && OnCurrentRoute(s.store.records[id], s.store.routes[route])
  {
    hide Inv, OneTask, AllStages, AnyInFlight, Lawful, Known, OnCurrentRoute, Step, Enabled;
    if op.Other? {
      OtherEnters(lib, s, op, id);
    } else if op.PublishControl? || op.FinishControl? {
      ControlEnters(lib, s, op, id);
    } else if op.PublishTask? || op.RevertTask? || op.FinishTask? {
      TaskEnters(lib, s, op, id);
    } else {
      StoreStays(lib, s, op);
    }
  }

  lemma StoreStays(lib: Library, s: State, op: Op)
    requires Enabled(s, op) && !op.Other? && !op.PublishControl? && !op.FinishControl? && !op.PublishTask?
             && !op.RevertTask? && !op.FinishTask?
    ensures Step(lib, s, op).store == s.store
  {
    hide Update, AnyInFlight;
  }

  /** A task that was not in flight before this step and is afterwards. */
  ghost predicate Enters(lib: Library, s: State, op: Op, id: string) {
    && Enabled(s, op)
    && var after := Step(lib, s, op).store.records;
       && id in after && after[id].kind == "task" && IngressSpec.InFlight(after[id].state)
       && !(id in s.store.records && IngressSpec.InFlight(s.store.records[id].state))
  }

  lemma OtherEnters(lib: Library, s: State, op: Op, id: string)
    requires SchedulerInv(lib, s) && op.Other?
    ensures !Enters(lib, s, op, id)
  {
    hide Inv, OneTask, AllStages, Calm, Allowed, IngressSpec.Step;
    if Enabled(s, op) {
      OthersCalm(lib, s.store, op.op);
    }
  }

  lemma ControlEnters(lib: Library, s: State, op: Op, id: string)
    requires SchedulerInv(lib, s) && (op.PublishControl? || op.FinishControl?)
    ensures !Enters(lib, s, op, id)
  {
    hide Inv, Update, OneTask, AllStages, AnyInFlight, Lawful, Known, OnCurrentRoute;
    if Enters(lib, s, op, id) {
      match op
      case PublishControl(route, requestID, sessionID, runtimeID, epoch) =>
        MyStage(s, route);
        LawfulChanges(requestID, sessionID, runtimeID, epoch, Received, "");
        EntersOnly(lib, s.store, s.dispatchers[route].id, route, "control", {Received},
                   Publishing(requestID, sessionID, runtimeID, epoch), id);
      case FinishControl(route, state, reason) =>
        MyStage(s, route);
        LawfulChanges("", "", "", 0, state, reason);
        EntersOnly(lib, s.store, s.dispatchers[route].id, route, "control", PENDING_STATES, Finishing(state, reason),
                   id);
    }
  }

  lemma TaskEnters(lib: Library, s: State, op: Op, id: string)
    requires SchedulerInv(lib, s) && (op.PublishTask? || op.RevertTask? || op.FinishTask?) && Enters(lib, s, op, id)
    ensures id in s.store.records
    ensures var route := s.store.records[id].Identity();
            && At(s, route) && !AnyInFlight(s.store, route)
            && route in s.store.routes && OnCurrentRoute(s.store.records[id], s.store.routes[route])
  {
    hide Inv, Update, OneTask, AllStages, AnyInFlight, Lawful, Known, OnCurrentRoute;
    match op
    case PublishTask(route, requestID, sessionID, runtimeID, epoch) =>
      MyStage(s, route);
      LawfulChanges(requestID, sessionID, runtimeID, epoch, Received, "");
      EntersOnly(lib, s.store, s.dispatchers[route].id, route, "task", {Received},
                 Publishing(requestID, sessionID, runtimeID, epoch), id);
      TaskRoute(lib, s.store, id);
    case RevertTask(route) =>
      MyStage(s, route);
      LawfulChanges("", "", "", 0, Received, "");
      EntersOnly(lib, s.store, s.dispatchers[route].id, route, "task", {Dispatching}, Reverting(), id);
      NoneButItself(s.store, route, id);
      TaskRoute(lib, s.store, id);
    case FinishTask(route, reason) =>
      MyStage(s, route);
      LawfulChanges("", "", "", 0, Unknown, reason);
      EntersOnly(lib, s.store, s.dispatchers[route].id, route, "task", PENDING_STATES, Finishing(Unknown, reason), id);
      NoneButItself(s.store, route, id);
      TaskRoute(lib, s.store, id);
  }

  /** Whatever a dispatcher's update brings into flight is its own record. */
  lemma EntersOnly(lib: Library, s: Store, own: string, route: ChatIdentity, kind: string,
                   allowed: set<IngressTypes.State>, change: Change, id: string)
    requires Inv(lib, s) && Known(s, own, route, kind) && Lawful(change) && forall state <- allowed :: !Final(state)
    requires var after := Update(lib, s, own, allowed, change).0.records;
             id in after && after[id].kind == "task" && IngressSpec.InFlight(after[id].state)
    requires !(id in s.records && IngressSpec.InFlight(s.records[id].state))
    ensures kind == "task" ==>
              id == own && id in s.records && s.records[id].Identity() == route && !s.records[id].Terminal()
    ensures kind == "task" ==> s.records[id].kind == "task"
    ensures kind == "task" || kind != "control"
  {
    hide Inv, Kept;
    NamedByID(lib, s);
    if own in s.records && change(s.records[own]).Some? {
      KeptSame(lib, change(s.records[own]).value.(updatedAt := s.now));
    }
  }

  lemma NoneButItself(s: Store, route: ChatIdentity, id: string)
    requires id in s.records && !IngressSpec.InFlight(s.records[id].state)
    requires forall x <- s.records :: s.records[x].Identity() == route && IngressSpec.InFlight(s.records[x].state) ==>
               x == id
    ensures !AnyInFlight(s, route)
  {
  }

  lemma TaskRoute(lib: Library, s: Store, id: string)
    requires Inv(lib, s) && id in s.records && s.records[id].kind == "task" && !s.records[id].Terminal()
    ensures s.records[id].Identity() in s.routes && OnCurrentRoute(s.records[id], s.routes[s.records[id].Identity()])
  {
    hide RecordsOK, HistoryOK, BusinessOK, SemanticOK, SequencesOK, Bounded;
  }
}
