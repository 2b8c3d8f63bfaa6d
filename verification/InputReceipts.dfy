/** Receipts for process inputs (internal/gateway/process_input_observer.go,
    internal/gateway/process_input.go).

    Everything but the commit callback happens under the process lock. Each locked
    region is one step; the worker's commit lies between two of them, so any other
    step may happen while it runs. */
module InputReceipts {
  import Utf8

  const MAX_PENDING_INPUTS: nat := 128
  const MAX_MESSAGE_BYTES: nat := 512

  datatype Option<+T> = None | Some(value: T)

  datatype Status = Unset | Handled | Queued | Started | Rejected | Unknown

  predicate Definite(status: Status) {
    !status.Unset? && !status.Unknown?
  }

  datatype Identity = Identity(runtimeID: string, sessionID: string, sessionEpoch: nat)

  datatype Receipt = Receipt(status: Status, message: string)

  /** `serial` tells apart observers registered under one ID, and `applied` is the
      last receipt the commit callback accepted; the program stores neither. */
  datatype Observer = Observer(
    identity: Identity, receipt: Receipt, version: nat, queued: bool, unconfirmed: bool,
    serial: nat, applied: Option<Receipt>)

  datatype Worker = Resting | Running | Committing(id: string, receipt: Receipt, version: nat)

  type Observers = map<string, Observer>

  /** `lost` counts the uncertain inputs that had no observer, and `settled` holds
      the final receipt of every observer that is done. */
  datatype State = State(
    identity: Identity, observers: Observers, queue: seq<string>, worker: Worker, blocked: bool, shutdown: bool,
    pending: set<string>, unconfirmed: int, registered: nat, lost: nat, settled: map<nat, Receipt>)

  datatype Refusal =
    | IdentityChanged | InvalidObserver | ManagerShuttingDown | Backpressure | AlreadyRegistered
    | EmptyID | AlreadyPending | DonePending | AlreadyResolved | NotAccepting | TooManyPending | WriteFailed

  predicate Matches(s: State, id: string)
    requires id in s.observers
  {
    s.observers[id].identity == s.identity
  }

  // queueInputReceiptLocked

  function ValidFront(message: string): (r: string)
    ensures r <= message && Utf8.Valid(r)
    ensures forall n: nat :: |r| < n <= |message| ==> !Utf8.Valid(message[..n])
  {
    if Utf8.Valid(message) then message
    else
      var r := ValidFront(message[..|message| - 1]);
      assert forall n: nat :: n < |message| ==> message[..|message| - 1][..n] == message[..n];
      assert message[..|message|] == message;
      r
  }

  function Clipped(message: string): string {
    if |message| > MAX_MESSAGE_BYTES then ValidFront(message[..MAX_MESSAGE_BYTES]) else message
  }

  function Woken(s: State): State {
    if s.worker.Resting? && s.queue != [] then s.(worker := Running) else s
  }

  /** The observer takes a receipt, unless it has a definite one. */
  function Marked(o: Observer, status: Status, message: string): Observer {
    o.(receipt := Receipt(status, Clipped(message)), version := o.version + 1, unconfirmed := o.unconfirmed
       || status.Unknown?)
  }

  predicate Deaf(s: State, id: string) {
    id !in s.observers || s.shutdown || Definite(s.observers[id].receipt.status)
  }

  /** The observer waits in the queue, unless the queue is full. */
  function Listed(s: State, id: string, o: Observer): State {
    if o.queued then Woken(s.(observers := s.observers[id := o]))
    else if |s.queue| >= MAX_PENDING_INPUTS then s.(observers := s.observers[id := o], blocked := true)
    else Woken(s.(observers := s.observers[id := o.(queued := true)], queue := s.queue + [id]))
  }

  function Enqueue(s: State, id: string, status: Status, message: string): State {
    if Deaf(s, id) then s
    else
      var o := s.observers[id];
      var marked := Marked(o, status, message);
      var counted := s.(unconfirmed := if status.Unknown? && !o.unconfirmed then s.unconfirmed + 1 else s.unconfirmed);
      Listed(counted, id, marked)
  }

  // The other locked regions

  function Observing(s: State, id: string, expected: Option<Identity>, callable: bool, stopping: bool): (State,
      Option<Refusal>) {
    if expected.Some? && expected.value != s.identity then (s, Some(IdentityChanged))
    else if id == "" || !callable then (s, Some(InvalidObserver))
    else if stopping then (s, Some(ManagerShuttingDown))
    else if s.shutdown || s.blocked || |s.observers| >= MAX_PENDING_INPUTS then (s, Some(Backpressure))
    else if id in s.observers then (s, Some(AlreadyRegistered))
    else
      (s.(observers := s.observers[id := Observer(s.identity, Receipt(Unset, ""), 0, false, false, s.registered, None)],
          registered := s.registered + 1), None)
  }

  /** The timer of one particular observer. */
  function TimedOut(s: State, id: string, serial: nat): State {
    if id in s.observers && s.observers[id].serial == serial then Enqueue(s, id, Unknown, "receipt_timeout") else s
  }

  /** `done` stands for a pending Done confirmation, `accepting` for an open
      standard input that is not guarded by a transfer. */
  function Sending(s: State, id: string, done: bool, accepting: bool, written: bool): (State, Option<Refusal>) {
    if id == "" then (s, Some(EmptyID))
    else if s.blocked then (s, Some(Backpressure))
    else if id in s.pending then (s, Some(AlreadyPending))
    else if id in s.observers && done then (s, Some(DonePending))
    else if id in s.observers && !Matches(s, id) then (s, Some(IdentityChanged))
    else if id in s.observers && !s.observers[id].receipt.status.Unset? then (s, Some(AlreadyResolved))
    else if !accepting then (s, Some(NotAccepting))
    else if |s.pending| >= MAX_PENDING_INPUTS then (s, Some(TooManyPending))
    else
      var sent := s.(pending := s.pending + {id});
      if written then (sent, None)
      else if id !in s.observers then (s, Some(WriteFailed))
      else (Enqueue(sent, id, Unknown, "delivery_outcome_unknown"), Some(WriteFailed))
  }

  /** applyInputResult, as far as receipts go. `stale`: a newer envelope overtook this one, which
      changes the answer of a definite result only. */
  function Resulting(s: State, id: string, target: Option<Identity>, status: Status, message: string,
                     stale: bool): (State, bool)
  {
    if target.Some? && target.value != s.identity then (s, false)
    else if status.Unset? then (s, false)
    else if id in s.observers then
      if !Matches(s, id) then (s, false) else (Enqueue(s, id, status, message), status.Unknown? || !stale)
    else if id !in s.pending then (s, false)
    else
      var known := s.(pending := s.pending - {id});
      (if status.Unknown? then known.(unconfirmed := s.unconfirmed + 1, lost := s.lost + 1) else known,
       status.Unknown? || !stale)
  }

  function GivenUp(s: State, id: string): State {
    if id in s.observers then Enqueue(s, id, Unknown, "process_exited")
    else s.(unconfirmed := s.unconfirmed + 1, lost := s.lost + 1, pending := s.pending - {id})
  }

  /** abandonPendingInputs visits the pending inputs in some order. */
  function Abandoned(s: State, order: seq<string>): State
    decreases |order|
  {
    if order == [] then s else GivenUp(Abandoned(s, order[..|order| - 1]), order[|order| - 1])
  }

  function AllQueued(s: State, order: seq<string>): State
    decreases |order|
  {
    if order == [] then s else Enqueue(AllQueued(s, order[..|order| - 1]), order[|order| - 1], Unknown,
                                       "gateway_shutdown")
  }

  /** WaitInputReceiptsShutdown, for one process. */
  function Sealed(s: State, order: seq<string>): State {
    Woken(AllQueued(s, order).(shutdown := true))
  }

  /** The top of the worker's loop. */
  function Picked(s: State): State {
    if s.queue == [] then s.(worker := Resting, blocked := false)
    else if s.queue[0] !in s.observers then s  // the program would fault here
    else
      var o := s.observers[s.queue[0]];
      s.(worker := Committing(s.queue[0], o.receipt, o.version))
  }

  /** After the commit callback. */
  function Finished(s: State, accepted: bool): State
    requires s.worker.Committing?
  {
    var Committing(id, receipt, version) := s.worker;
    if !accepted then s.(blocked := true, worker := Resting)
    else if id !in s.observers || s.queue == [] then s
    else
      var o := s.observers[id].(applied := Some(receipt));
      if o.version != version then s.(observers := s.observers[id := o], worker := Running)
      else if !Definite(receipt.status) then
        s.(observers := s.observers[id := o.(queued := false)], queue := s.queue[1..], worker := Running)
      else
        s.(observers := s.observers - {id}, queue := s.queue[1..], worker := Running, pending := s.pending - {id},
           unconfirmed := if o.unconfirmed && s.unconfirmed > 0 then s.unconfirmed - 1 else s.unconfirmed,
           settled := s.settled[o.serial := receipt])
  }

  datatype Op =
    | Observe(id: string, expected: Option<Identity>, callable: bool, stopping: bool)
    | Timeout(id: string, serial: nat)
    | Send(id: string, done: bool, accepting: bool, written: bool)
    | Result(id: string, target: Option<Identity>, status: Status, message: string, stale: bool)
    | Abandon(order: seq<string>)
    | Identify(identity: Identity)
    | Block
    | Seal(order: seq<string>)
    | Pick
    | Finish(accepted: bool)

  predicate Enumerates(order: seq<string>, ids: set<string>) {
    (forall i, j :: 0 <= i < j < |order| ==> order[i] != order[j]) && (set id | id in order) == ids
  }

  predicate Enabled(s: State, op: Op) {
    match op
    case Abandon(order) => Enumerates(order, s.pending)
    case Seal(order) => Enumerates(order, s.observers.Keys)
    case Pick => s.worker.Running?
    case Finish(_) => s.worker.Committing?
    case _ => true
  }

  function Step(s: State, op: Op): State
    requires Enabled(s, op)
  {
    match op
    case Observe(id, expected, callable, stopping) => Observing(s, id, expected, callable, stopping).0
    case Timeout(id, serial) => TimedOut(s, id, serial)
    case Send(id, done, accepting, written) => Sending(s, id, done, accepting, written).0
    case Result(id, target, status, message, stale) => Resulting(s, id, target, status, message, stale).0
    case Abandon(order) => Abandoned(s, order)
    case Identify(identity) => s.(identity := identity)
    case Block => s.(blocked := true)
    case Seal(order) => Sealed(s, order)
    case Pick => Picked(s)
    case Finish(accepted) => Finished(s, accepted)
  }

  // The invariant

  ghost predicate ObserverOK(o: Observer) {
    && (o.receipt.status.Unset? ==> o.version == 0 && !o.queued && !o.unconfirmed)
    && (o.receipt.status.Unknown? ==> o.unconfirmed)
    && (!o.queued ==>
          !Definite(o.receipt.status) && o.applied == if o.receipt.status.Unset? then None else Some(o.receipt))
  }

  /** Observers are distinct registrations, at most 128 of them. */
  ghost predicate ObserversOK(observers: Observers, registered: nat, settled: map<nat, Receipt>) {
    && |observers| <= MAX_PENDING_INPUTS
    && (forall id <- observers ::
          ObserverOK(observers[id]) && observers[id].serial < registered && observers[id].serial !in settled)
    && (forall a <- observers, b <- observers :: a != b ==> observers[a].serial != observers[b].serial)
    && (forall n <- settled :: n < registered && Definite(settled[n].status))
  }

  /** The queue holds exactly the observers marked as queued, each once. */
  ghost predicate QueueOK(observers: Observers, queue: seq<string>) {
    && (forall i, j :: 0 <= i < j < |queue| ==> queue[i] != queue[j])
    && (forall id :: id in queue <==> id in observers && observers[id].queued)
  }

  /** A commit under way is of the front observer's receipt, or of an older one.
      The worker rests on unfinished work only after a failed commit. */
  ghost predicate WorkerOK(observers: Observers, queue: seq<string>, worker: Worker, blocked: bool) {
    && (worker.Committing? ==>
          && queue != [] && queue[0] == worker.id && worker.id in observers
          && !worker.receipt.status.Unset?
          && worker.version <= observers[worker.id].version
          && (worker.version == observers[worker.id].version ==> worker.receipt == observers[worker.id].receipt)
          && (Definite(worker.receipt.status) ==> worker.version == observers[worker.id].version))
    && (worker.Resting? && queue != [] ==> blocked)
  }

  ghost function Uncertain(observers: Observers): set<string> {
    set id | id in observers && observers[id].unconfirmed
  }

  ghost predicate CountOK(s: State) {
    s.unconfirmed == s.lost + |Uncertain(s.observers)| && |s.pending| <= MAX_PENDING_INPUTS
  }

  ghost predicate SealOK(s: State) {
    s.shutdown ==> forall id <- s.observers :: !s.observers[id].receipt.status.Unset?
  }

  ghost predicate Inv(s: State) {
    && ObserversOK(s.observers, s.registered, s.settled) && QueueOK(s.observers, s.queue)
    && WorkerOK(s.observers, s.queue, s.worker, s.blocked) && CountOK(s) && SealOK(s)
  }

  // Enqueue keeps it

  lemma Fits(queue: seq<string>, ids: set<string>, id: string)
    requires forall i, j :: 0 <= i < j < |queue| ==> queue[i] != queue[j]
    requires (forall x <- queue :: x in ids) && id in ids && id !in queue
    ensures |queue| < |ids|
  {
    Distinct(queue);
    var members := set x | x in queue;
    assert members <= ids - {id};
    Subset(members, ids - {id});
  }

  lemma {:induction false} Distinct(queue: seq<string>)
    requires forall i, j :: 0 <= i < j < |queue| ==> queue[i] != queue[j]
    ensures |set x | x in queue| == |queue|
  {
    if queue != [] {
      Distinct(queue[1..]);
      assert (set x | x in queue) == {queue[0]} + set x | x in queue[1..];
    }
  }

  lemma {:induction false} Subset(a: set<string>, b: set<string>)
    requires a <= b
    ensures |a| <= |b|
  {
    assert b == a + (b - a);
  }

  /** The queue never overflows: only live observers wait in it, each at most once. */
  lemma QueueHasRoom(s: State, id: string)
    requires Inv(s) && id in s.observers && !s.observers[id].queued
    ensures |s.queue| < MAX_PENDING_INPUTS
  {
    hide ObserverOK;
    Fits(s.queue, s.observers.Keys, id);
  }

  lemma MarkedCount(observers: Observers, id: string, o: Observer)
    requires id in observers && (observers[id].unconfirmed ==> o.unconfirmed)
    ensures |Uncertain(observers[id := o])| == |Uncertain(observers)| + if o.unconfirmed
            && !observers[id].unconfirmed then 1 else 0
  {
    var after := Uncertain(observers[id := o]);
    if o.unconfirmed && !observers[id].unconfirmed {
      assert after == Uncertain(observers) + {id};
    } else {
      assert after == Uncertain(observers);
    }
  }

  /** What Enqueue does to an observer that listens: there is always room. */
  lemma EnqueueMeaning(s: State, id: string, status: Status, message: string)
    requires Inv(s) && !Deaf(s, id)
    ensures var o := s.observers[id];
            Enqueue(s, id, status, message) ==
              s.(observers := s.observers[id := Marked(o, status, message).(queued := true)],
                 queue := if o.queued then s.queue else s.queue + [id],
                 worker := if s.worker.Resting? then Running else s.worker,
                 unconfirmed := if status.Unknown? && !o.unconfirmed then s.unconfirmed + 1 else s.unconfirmed)
  {
    hide Clipped, ObserversOK, WorkerOK, CountOK, SealOK;
    if !s.observers[id].queued {
      QueueHasRoom(s, id);
    } else {
      assert id in s.queue;
      assert Marked(s.observers[id], status, message).(queued := true) == Marked(s.observers[id], status, message);
    }
  }

  lemma ReplacedOK(observers: Observers, registered: nat, settled: map<nat, Receipt>, id: string, o: Observer)
    requires ObserversOK(observers, registered, settled) && id in observers && ObserverOK(o)
             && o.serial == observers[id].serial
    ensures ObserversOK(observers[id := o], registered, settled)
  {
    hide ObserverOK;
    assert observers[id := o].Keys == observers.Keys;
  }

  lemma QueuedOK(observers: Observers, queue: seq<string>, id: string, o: Observer)
    requires QueueOK(observers, queue) && id in observers && o.queued
    ensures QueueOK(observers[id := o], if observers[id].queued then queue else queue + [id])
  {
    if !observers[id].queued {
      assert id !in queue;
    }
  }

  lemma EnqueueInv(s: State, id: string, status: Status, message: string)
    requires Inv(s) && !status.Unset?
    ensures Inv(Enqueue(s, id, status, message))
  {
    hide Clipped, ObserversOK, QueueOK, Uncertain, Enqueue;
    if Deaf(s, id) {
      hide WorkerOK, CountOK, SealOK;
      DeafSame(s, id, status, message);
    } else {
      EnqueueMeaning(s, id, status, message);
      var o := Marked(s.observers[id], status, message).(queued := true);
      ReplacedOK(s.observers, s.registered, s.settled, id, o);
      QueuedOK(s.observers, s.queue, id, o);
      MarkedCount(s.observers, id, o);
    }
  }

  lemma DeafSame(s: State, id: string, status: Status, message: string)
    ensures Deaf(s, id) ==> Enqueue(s, id, status, message) == s
  {
  }

  lemma EnqueueFrame(s: State, id: string, status: Status, message: string)
    requires !status.Unset?
    ensures var s' := Enqueue(s, id, status, message);
            && s'.observers.Keys == s.observers.Keys && s'.pending == s.pending && s'.shutdown == s.shutdown
            && s'.settled == s.settled && s'.lost == s.lost
            && (forall x <- s.observers :: x != id || Deaf(s, id) ==> s'.observers[x] == s.observers[x])
            && (id in s.observers ==> s'.observers[id].serial == s.observers[id].serial)
            && (id in s.observers && !s.shutdown ==> !s'.observers[id].receipt.status.Unset?)
  {
    hide Clipped;
  }

  // Every step keeps it

  lemma AddedOK(observers: Observers, registered: nat, settled: map<nat, Receipt>, queue: seq<string>, id: string,
                o: Observer)
    requires ObserversOK(observers, registered, settled) && QueueOK(observers, queue) && id !in observers
    requires |observers| < MAX_PENDING_INPUTS && o.serial == registered && ObserverOK(o) && !o.queued && !o.unconfirmed
    ensures ObserversOK(observers[id := o], registered + 1, settled) && QueueOK(observers[id := o], queue)
    ensures Uncertain(observers[id := o]) == Uncertain(observers)
  {
    hide ObserverOK;
    assert observers[id := o].Keys == observers.Keys + {id};
  }

  lemma ObservingInv(s: State, id: string, expected: Option<Identity>, callable: bool, stopping: bool)
    requires Inv(s)
    ensures Inv(Observing(s, id, expected, callable, stopping).0)
  {
    hide ObserversOK, QueueOK, Uncertain;
    if id !in s.observers && |s.observers| < MAX_PENDING_INPUTS {
      AddedOK(s.observers, s.registered, s.settled, s.queue, id,
              Observer(s.identity, Receipt(Unset, ""), 0, false, false, s.registered, None));
    }
  }

  lemma SendingInv(s: State, id: string, done: bool, accepting: bool, written: bool)
    requires Inv(s)
    ensures Inv(Sending(s, id, done, accepting, written).0)
  {
    hide ObserversOK, QueueOK, WorkerOK, Enqueue, Uncertain;
    var s' := Sending(s, id, done, accepting, written).0;
    if s' != s {
      var sent := s.(pending := s.pending + {id});
      EnqueueInv(sent, id, Unknown, "delivery_outcome_unknown");
    }
  }

  lemma ResultingInv(s: State, id: string, target: Option<Identity>, status: Status, message: string, stale: bool)
    requires Inv(s)
    ensures Inv(Resulting(s, id, target, status, message, stale).0)
  {
    hide ObserversOK, QueueOK, WorkerOK, Enqueue, Uncertain;
    if !status.Unset? {
      EnqueueInv(s, id, status, message);
    }
    if id in s.pending {
      Subset(s.pending - {id}, s.pending);
    }
  }

  lemma GivenUpInv(s: State, id: string)
    requires Inv(s)
    ensures Inv(GivenUp(s, id))
  {
    hide ObserversOK, QueueOK, WorkerOK, Enqueue, Uncertain;
    if id in s.observers {
      EnqueueInv(s, id, Unknown, "process_exited");
    } else {
      Subset(s.pending - {id}, s.pending);
    }
  }

  lemma {:induction false} AbandonedInv(s: State, order: seq<string>)
    requires Inv(s)
    ensures Inv(Abandoned(s, order))
    decreases |order|
  {
    hide Inv, GivenUp;
    if order != [] {
      AbandonedInv(s, order[..|order| - 1]);
      GivenUpInv(Abandoned(s, order[..|order| - 1]), order[|order| - 1]);
    }
  }

  lemma {:induction false} AllQueuedInv(s: State, order: seq<string>)
    requires Inv(s)
    ensures var s' := AllQueued(s, order);
            && Inv(s') && s'.observers.Keys == s.observers.Keys && s'.shutdown == s.shutdown
            && (forall id <- s.observers :: !s.observers[id].receipt.status.Unset? ==>
                !s'.observers[id].receipt.status.Unset?)
            && (!s.shutdown ==> forall id <- s.observers :: id in order ==> !s'.observers[id].receipt.status.Unset?)
    decreases |order|
  {
    hide Inv, Enqueue;
    if order != [] {
      var front, last := order[..|order| - 1], order[|order| - 1];
      AllQueuedInv(s, front);
      EnqueueInv(AllQueued(s, front), last, Unknown, "gateway_shutdown");
      EnqueueFrame(AllQueued(s, front), last, Unknown, "gateway_shutdown");
      EnqueueStatus(AllQueued(s, front), last, Unknown, "gateway_shutdown");
      assert order == front + [last];
    }
  }

  lemma EnqueueStatus(s: State, id: string, status: Status, message: string)
    requires !status.Unset?
    ensures forall x <- s.observers :: !s.observers[x].receipt.status.Unset? ==>
              x in Enqueue(s, id, status, message).observers
                && !Enqueue(s, id, status, message).observers[x].receipt.status.Unset?
  {
    hide Enqueue;
    EnqueueFrame(s, id, status, message);
  }

  lemma SealedInv(s: State, order: seq<string>)
    requires Inv(s) && Enumerates(order, s.observers.Keys)
    ensures Inv(Sealed(s, order))
  {
    hide ObserversOK, QueueOK, Uncertain, AllQueued;
    AllQueuedInv(s, order);
    forall id | id in s.observers
      ensures id in order
    {
      assert id in (set x | x in order);
    }
  }

  lemma PickedInv(s: State)
    requires Inv(s) && s.worker.Running?
    ensures Inv(Picked(s)) && (s.queue != [] ==> Picked(s).worker.Committing?)
  {
    hide Uncertain, ObserverOK;
    if s.queue != [] {
      assert s.queue[0] in s.queue;
      assert ObserverOK(s.observers[s.queue[0]]);
      SetQueued(s.observers[s.queue[0]]);
    }
  }

  lemma SetQueued(o: Observer)
    requires ObserverOK(o) && o.queued
    ensures !o.receipt.status.Unset?
  {
  }

  lemma QueuePopped(observers: Observers, queue: seq<string>)
    requires QueueOK(observers, queue) && queue != [] && queue[0] in observers
    ensures QueueOK(observers - {queue[0]}, queue[1..])
    ensures forall o: Observer :: !o.queued ==> QueueOK(observers[queue[0] := o], queue[1..])
  {
    assert queue == [queue[0]] + queue[1..];
  }

  lemma DroppedOK(observers: Observers, registered: nat, settled: map<nat, Receipt>, id: string, receipt: Receipt)
    requires ObserversOK(observers, registered, settled) && id in observers && Definite(receipt.status)
    ensures ObserversOK(observers - {id}, registered, settled[observers[id].serial := receipt])
  {
    hide ObserverOK;
    assert (observers - {id}).Keys == observers.Keys - {id};
  }

  lemma DroppedCount(observers: Observers, id: string)
    requires id in observers
    ensures |Uncertain(observers)| == |Uncertain(observers - {id})| + if observers[id].unconfirmed then 1 else 0
  {
    if observers[id].unconfirmed {
      assert Uncertain(observers) == Uncertain(observers - {id}) + {id};
    } else {
      assert Uncertain(observers) == Uncertain(observers - {id});
    }
  }

  /** The observer of a commit that succeeded, while its receipt is current. */
  lemma AppliedOK(s: State)
    requires Inv(s) && s.worker.Committing?
    ensures s.queue != [] && s.queue[0] == s.worker.id && s.worker.id in s.observers && s.observers[s.worker.id].queued
    ensures var o := s.observers[s.worker.id];
            && ObserverOK(o.(applied := Some(s.worker.receipt)))
            && (o.version == s.worker.version ==> o.receipt == s.worker.receipt)
            && (o.version == s.worker.version && !Definite(o.receipt.status) ==>
                  ObserverOK(o.(applied := Some(s.worker.receipt), queued := false)))
  {
    hide CountOK, SealOK;
    assert s.queue[0] in s.queue;
    assert ObserverOK(s.observers[s.worker.id]);
  }

  lemma FinishedInv(s: State, accepted: bool)
    requires Inv(s) && s.worker.Committing?
    ensures Inv(Finished(s, accepted))
  {
    hide ObserversOK, QueueOK, ObserverOK, Uncertain;
    AppliedOK(s);
    var Committing(id, receipt, version) := s.worker;
    var o := s.observers[id].(applied := Some(receipt));
    QueuePopped(s.observers, s.queue);
    if accepted {
      if o.version != version {
        ReplacedOK(s.observers, s.registered, s.settled, id, o);
        QueuedOK(s.observers, s.queue, id, o);
        MarkedCount(s.observers, id, o);
      } else if !Definite(receipt.status) {
        ReplacedOK(s.observers, s.registered, s.settled, id, o.(queued := false));
        MarkedCount(s.observers, id, o.(queued := false));
      } else {
        DroppedOK(s.observers, s.registered, s.settled, id, receipt);
        DroppedCount(s.observers, id);
        Subset(s.pending - {id}, s.pending);
      }
    }
  }

  lemma StepInv(s: State, op: Op)
    requires Inv(s) && Enabled(s, op)
    ensures Inv(Step(s, op))
  {
    hide Inv, Observing, Sending, Resulting, Abandoned, Sealed, Picked, Finished, Enqueue;
    match op
    case Observe(id, expected, callable, stopping) => ObservingInv(s, id, expected, callable, stopping);
    case Timeout(id, serial) => EnqueueInv(s, id, Unknown, "receipt_timeout");
    case Send(id, done, accepting, written) => SendingInv(s, id, done, accepting, written);
    case Result(id, target, status, message, stale) => ResultingInv(s, id, target, status, message, stale);
    case Abandon(order) => AbandonedInv(s, order);
    case Seal(order) => SealedInv(s, order);
    case Pick => PickedInv(s);
    case Finish(accepted) => FinishedInv(s, accepted);
    case Identify(identity) => FlagsInv(s, identity);
    case Block => FlagsInv(s, s.identity);
  }

  lemma FlagsInv(s: State, identity: Identity)
    requires Inv(s)
    ensures Inv(s.(identity := identity)) && Inv(s.(blocked := true))
  {
  }

  // Runs

  function Start(identity: Identity): State {
    State(identity, map[], [], Resting, false, false, {}, 0, 0, 0, map[])
  }

  ghost predicate CanRun(s: State, ops: seq<Op>)
    decreases |ops|
  {
    ops == [] || (Enabled(s, ops[0]) && CanRun(Step(s, ops[0]), ops[1..]))
  }

  ghost function Run(s: State, ops: seq<Op>): State
    requires CanRun(s, ops)
    decreases |ops|
  {
    if ops == [] then s else Run(Step(s, ops[0]), ops[1..])
  }

  lemma StartInv(identity: Identity)
    ensures Inv(Start(identity))
  {
  }

  lemma {:induction false} RunInv(s: State, ops: seq<Op>)
    requires Inv(s) && CanRun(s, ops)
    ensures Inv(Run(s, ops))
    decreases |ops|
  {
    hide Inv, Step, Enabled;
    if ops != [] {
      StepInv(s, ops[0]);
      RunInv(Step(s, ops[0]), ops[1..]);
    }
  }

  // What it gives

  /** At no point can a receipt be dropped for want of room, and the worker always
      finds the observer at the front of the queue. */
  lemma NeverOverflows(identity: Identity, ops: seq<Op>, id: string, status: Status, message: string)
    requires CanRun(Start(identity), ops) && !status.Unset?
    ensures var s := Run(Start(identity), ops);
            && |s.queue| <= |s.observers| <= MAX_PENDING_INPUTS
            && (!Deaf(s, id) ==> id in Enqueue(s, id, status, message).queue)
            && Enqueue(s, id, status, message).blocked == s.blocked
            && (s.worker.Running? && s.queue != [] ==> Picked(s).worker.Committing?)
  {
    hide Run, CanRun, Enqueue, Picked, Clipped;
    StartInv(identity);
    RunInv(Start(identity), ops);
    var s := Run(Start(identity), ops);
    hide WorkerOK, CountOK, SealOK, ObserverOK;
    QueueWithin(s.queue, s.observers.Keys);
    if Deaf(s, id) {
      DeafSame(s, id, status, message);
    } else {
      EnqueueMeaning(s, id, status, message);
      assert s.observers[id].queued ==> id in s.queue;
    }
    if s.worker.Running? {
      PickedInv(s);
    }
  }

  lemma QueueWithin(queue: seq<string>, ids: set<string>)
    requires forall i, j :: 0 <= i < j < |queue| ==> queue[i] != queue[j]
    requires forall x <- queue :: x in ids
    ensures |queue| <= |ids|
  {
    Distinct(queue);
    Subset((set x | x in queue), ids);
  }

  /** The counter of unconfirmed inputs is exact: the uncertain inputs that had no
      observer, and the observers marked unconfirmed, each once. */
  lemma UnconfirmedIsExact(identity: Identity, ops: seq<Op>)
    requires CanRun(Start(identity), ops)
    ensures var s := Run(Start(identity), ops);
            s.unconfirmed == s.lost + |Uncertain(s.observers)| && s.unconfirmed >= 0
              && |s.pending| <= MAX_PENDING_INPUTS
  {
    hide Run, CanRun;
    StartInv(identity);
    RunInv(Start(identity), ops);
  }

  /** Registration `n` under this ID has this receipt, or ended with it. */
  // What a result comes to

  /** The longest front that is valid UTF-8 within 512 bytes, of a message that is longer. */
  predicate IsClip(message: string, r: string) {
    if |message| <= MAX_MESSAGE_BYTES then r == message
    else
      && |r| <= MAX_MESSAGE_BYTES && r == message[..|r|] && Utf8.Valid(r)
      && forall n: nat :: |r| < n <= MAX_MESSAGE_BYTES ==> !Utf8.Valid(message[..n])
  }

  lemma ClippedMeaning(message: string)
    ensures IsClip(message, Clipped(message))
  {
    if |message| > MAX_MESSAGE_BYTES {
      var front := message[..MAX_MESSAGE_BYTES];
      assert forall n: nat :: n <= MAX_MESSAGE_BYTES ==> front[..n] == message[..n];
    }
  }

  /** A result of this process for an input it knows, whose observer, if any, is of this
      identity too. */
  predicate Applicable(s: State, id: string, target: Option<Identity>, status: Status) {
    && (target.Some? ==> target.value == s.identity) && !status.Unset?
    && if id in s.observers then s.observers[id].identity == s.identity else id in s.pending
  }

  /** The observer of this input still takes receipts. */
  predicate Listening(s: State, id: string) {
    id in s.observers && !s.shutdown && (s.observers[id].receipt.status.Unset?
                                         || s.observers[id].receipt.status.Unknown?)
  }

  /** The observer has exactly this status and this message, clipped, and waits in the queue
      once; a worker will see it; nothing else is touched. */
  ghost predicate Receives(s: State, s': State, id: string, status: Status, message: string)
    requires id in s.observers
  {
    && id in s'.observers && id in s'.queue
    && (forall i, j :: 0 <= i < j < |s'.queue| ==> s'.queue[i] != s'.queue[j])
    && var o, o' := s.observers[id], s'.observers[id];
       && o'.receipt.status == status && IsClip(message, o'.receipt.message)
       && o' == o.(receipt := o'.receipt, version := o.version + 1, queued := true,
                   unconfirmed := o.unconfirmed || status.Unknown?)
       && s' == s.(observers := s.observers[id := o'],
                   queue := if o.queued then s.queue else s.queue + [id],
                   worker := if s.worker.Resting? then Running else s.worker,
                   unconfirmed := if status.Unknown? && !o.unconfirmed then s.unconfirmed + 1 else s.unconfirmed)
  }

  /** What a result does, and the answer it gets. */
  ghost predicate ResultOutcome(s: State, s': State, applied: bool, id: string, target: Option<Identity>,
                                status: Status, message: string, stale: bool) {
    if !Applicable(s, id, target, status) then s' == s && !applied
    else
      && (applied <==> status.Unknown? || !stale)
      && if Listening(s, id) then Receives(s, s', id, status, message)
         else if id in s.observers then s' == s
         else
           s' == s.(pending := s.pending - {id},
                    unconfirmed := if status.Unknown? then s.unconfirmed + 1 else s.unconfirmed,
                    lost := if status.Unknown? then s.lost + 1 else s.lost)
  }

  lemma EnqueueReceives(s: State, id: string, status: Status, message: string)
    requires Inv(s) && Listening(s, id) && !status.Unset?
    ensures Receives(s, Enqueue(s, id, status, message), id, status, message)
  {
    hide ObserverOK, WorkerOK, CountOK, SealOK, Enqueue, Clipped, IsClip;
    ClippedMeaning(message);
    EnqueueMeaning(s, id, status, message);
  }

  /** A result reaches the observer that listens for it as it is. */
  lemma ResultMeaning(s: State, id: string, target: Option<Identity>, status: Status, message: string, stale: bool)
    requires Inv(s)
    ensures ResultOutcome(s, Step(s, Result(id, target, status, message, stale)),
                          Resulting(s, id, target, status, message, stale).1, id, target, status, message, stale)
  {
    hide Inv, Enqueue, Receives;
    if Listening(s, id) && !status.Unset? {
      EnqueueReceives(s, id, status, message);
    } else {
      DeafSame(s, id, status, message);
    }
  }

  /** An input may be written that is new, within the limits, and not resolved already. */
  predicate MaySend(s: State, id: string, done: bool, accepting: bool) {
    && id != "" && !s.blocked && accepting && id !in s.pending && |s.pending| < 128
    && (id in s.observers ==>
          !done && s.observers[id].identity == s.identity && s.observers[id].receipt.status.Unset?)
  }

  /** An input that was written is pending; one that could not be written is uncertain for
      its observer, and forgotten without one. */
  ghost predicate SendOutcome(s: State, s': State, refused: bool, id: string, done: bool, accepting: bool,
                              written: bool) {
    var sent := s.(pending := s.pending + {id});
    if !MaySend(s, id, done, accepting) then refused && s' == s
    else if written then !refused && s' == sent
    else refused && if id in s.observers then Receives(sent, s', id, Unknown, "delivery_outcome_unknown") else s' == s
  }

  lemma SendMeaning(s: State, id: string, done: bool, accepting: bool, written: bool)
    requires Inv(s)
    ensures var (s', refusal) := Sending(s, id, done, accepting, written);
            SendOutcome(s, s', refusal.Some?, id, done, accepting, written)
  {
    hide ObserverOK, WorkerOK, ObserversOK, QueueOK, CountOK, Enqueue, Receives;
    var sent := s.(pending := s.pending + {id});
    if MaySend(s, id, done, accepting) && id in s.observers {
      SendingInv(s, id, done, accepting, true);
      EnqueueReceives(sent, id, Unknown, "delivery_outcome_unknown");
    }
  }

  /** The timer of a registration without a definite receipt makes it uncertain. */
  lemma TimeoutMeaning(s: State, id: string, serial: nat)
    requires Inv(s)
    ensures var s' := Step(s, Timeout(id, serial));
            if Listening(s, id) && s.observers[id].serial == serial then Receives(s, s', id, Unknown, "receipt_timeout")
            else s' == s
  {
    hide Inv, Enqueue, Receives;
    if Listening(s, id) {
      EnqueueReceives(s, id, Unknown, "receipt_timeout");
    } else {
      DeafSame(s, id, Unknown, "receipt_timeout");
    }
  }

  /** A receipt that could not be committed stops the worker. One that was is final, unless
      it is uncertain, when a later one may follow, or a newer one has come meanwhile. */
  ghost predicate CommitOutcome(s: State, s': State, accepted: bool)
    requires s.worker.Committing?
  {
    var Committing(id, receipt, version) := s.worker;
    if !accepted then s'.blocked && s'.worker.Resting? && s'.observers == s.observers && s'.queue == s.queue
    else
      && s'.worker.Running? && s'.blocked == s.blocked && id in s.observers && s.queue != [] && s.queue[0] == id
      && var o := s.observers[id];
         if o.version != version then
           s'.queue == s.queue && s'.observers == s.observers[id := o.(applied := Some(receipt))]
         else
           && o.receipt == receipt && s'.queue == s.queue[1..]
           && if receipt.status.Unknown? then
                s'.observers == s.observers[id := o.(applied := Some(receipt), queued := false)]
              else
                s'.observers == s.observers - {id} && id !in s'.pending && s'.settled == s.settled[o.serial := receipt]
  }

  lemma FinishedMeaning(s: State, accepted: bool)
    requires Inv(s) && s.worker.Committing?
    ensures CommitOutcome(s, Finished(s, accepted), accepted)
  {
    hide ObserversOK, QueueOK, CountOK, SealOK;
  }

  ghost function Unobserved(s: State, order: seq<string>): set<string> {
    set id | id in order && id !in s.observers
  }

  /** Observers that still listen have this receipt; the others are as they were. */
  ghost predicate EachReceives(s: State, s': State, order: seq<string>, receipt: Receipt) {
    && s'.observers.Keys == s.observers.Keys
    && (forall id <- s.observers ::
          if id in order && Listening(s, id) then
            s'.observers[id].receipt == receipt && s'.observers[id].serial == s.observers[id].serial
          else s'.observers[id] == s.observers[id])
    && s'.shutdown == s.shutdown && s'.identity == s.identity
  }

  lemma EnqueueGives(s: State, id: string, status: Status, message: string)
    requires Inv(s) && Listening(s, id) && status.Unknown? && |message| <= 512
    ensures var s' := Enqueue(s, id, status, message);
            && s'.observers.Keys == s.observers.Keys && s'.observers[id].receipt == Receipt(status, message)
            && s'.observers[id].serial == s.observers[id].serial
            && (forall x <- s.observers :: x != id ==> s'.observers[x] == s.observers[x])
            && s'.shutdown == s.shutdown && s'.identity == s.identity && s'.pending == s.pending && s'.lost == s.lost
            && Listening(s', id)
  {
    hide Inv, Enqueue;
    EnqueueReceives(s, id, status, message);
  }

  lemma GivesOneMore(s: State, before: State, after: State, order: seq<string>, id: string, receipt: Receipt)
    requires EachReceives(s, before, order, receipt) && id !in order && receipt.status.Unknown?
             && |receipt.message| <= 512
    requires Inv(before) && after == Enqueue(before, id, receipt.status, receipt.message)
    ensures EachReceives(s, after, order + [id], receipt) && after.pending == before.pending
            && after.lost == before.lost
  {
    hide Inv, Enqueue;
    if Listening(before, id) {
      EnqueueGives(before, id, receipt.status, receipt.message);
    } else {
      DeafSame(before, id, receipt.status, receipt.message);
    }
  }

  /** After the process has exited, no input without an observer is pending any more, each
      of them counts as lost, and every observer of one has a receipt. */
  lemma {:induction false} AbandonedMeaning(s: State, order: seq<string>)
    requires Inv(s) && forall i, j :: 0 <= i < j < |order| ==> order[i] != order[j]
    ensures var s' := Abandoned(s, order);
            && EachReceives(s, s', order, Receipt(Unknown, "process_exited"))
            && s'.pending == s.pending - Unobserved(s, order) && s'.lost == s.lost + |Unobserved(s, order)|
    decreases |order|
  {
    hide Inv, Enqueue, EachReceives;
    if order == [] {
      GivenNothing(s, Receipt(Unknown, "process_exited"));
    } else {
      var n := |order| - 1;
      var before, id := Abandoned(s, order[..n]), order[n];
      AbandonedMeaning(s, order[..n]);
      AbandonedInv(s, order[..n]);
      GivenKeys(s, before, order[..n], Receipt(Unknown, "process_exited"));
      assert order == order[..n] + [id];
      UnobservedMore(s, order[..n], id);
      if id in s.observers {
        GivesOneMore(s, before, Abandoned(s, order), order[..n], id, Receipt(Unknown, "process_exited"));
      } else {
        GivenElsewhere(s, before, Abandoned(s, order), order[..n], id, Receipt(Unknown, "process_exited"));
      }
    }
  }

  lemma GivenNothing(s: State, receipt: Receipt)
    ensures EachReceives(s, s, [], receipt) && Unobserved(s, []) == {}
  {
  }

  lemma GivenKeys(s: State, s': State, order: seq<string>, receipt: Receipt)
    requires EachReceives(s, s', order, receipt)
    ensures s'.observers.Keys == s.observers.Keys
  {
  }

  lemma GivenElsewhere(s: State, before: State, after: State, order: seq<string>, id: string, receipt: Receipt)
    requires EachReceives(s, before, order, receipt) && id !in s.observers
    requires after.observers == before.observers && after.shutdown == before.shutdown
             && after.identity == before.identity
    ensures EachReceives(s, after, order + [id], receipt)
  {
  }

  lemma UnobservedMore(s: State, order: seq<string>, id: string)
    requires id !in order
    ensures Unobserved(s, order + [id]) == Unobserved(s, order) + if id in s.observers then {} else {id}
    ensures |Unobserved(s, order + [id])| == |Unobserved(s, order)| + if id in s.observers then 0 else 1
  {
    assert Unobserved(s, order + [id]) == Unobserved(s, order) + if id in s.observers then {} else {id};
  }

  /** At shutdown every observer that still listens gets the same receipt. */
  lemma {:induction false} AllQueuedMeaning(s: State, order: seq<string>)
    requires Inv(s) && forall i, j :: 0 <= i < j < |order| ==> order[i] != order[j]
    ensures EachReceives(s, AllQueued(s, order), order, Receipt(Unknown, "gateway_shutdown"))
    decreases |order|
  {
    hide Inv, Enqueue, EachReceives;
    if order == [] {
      GivenNothing(s, Receipt(Unknown, "gateway_shutdown"));
    } else {
      var n := |order| - 1;
      AllQueuedMeaning(s, order[..n]);
      AllQueuedInv(s, order[..n]);
      assert order == order[..n] + [order[n]];
      GivesOneMore(s, AllQueued(s, order[..n]), AllQueued(s, order), order[..n], order[n],
                   Receipt(Unknown, "gateway_shutdown"));
    }
  }

  ghost predicate Resolved(s: State, id: string, n: nat, receipt: Receipt) {
    || (id in s.observers && s.observers[id].serial == n && s.observers[id].receipt == receipt)
    || (n in s.settled && s.settled[n] == receipt)
  }

  lemma {:induction false} AbandonedKeeps(s: State, order: seq<string>, id: string, n: nat, receipt: Receipt)
    requires Resolved(s, id, n, receipt) && Definite(receipt.status)
    ensures Resolved(Abandoned(s, order), id, n, receipt)
    decreases |order|
  {
    hide Enqueue;
    if order != [] {
      var front := order[..|order| - 1];
      AbandonedKeeps(s, front, id, n, receipt);
      EnqueueFrame(Abandoned(s, front), order[|order| - 1], Unknown, "process_exited");
    }
  }

  lemma {:induction false} AllQueuedKeeps(s: State, order: seq<string>, id: string, n: nat, receipt: Receipt)
    requires Resolved(s, id, n, receipt) && Definite(receipt.status)
    ensures Resolved(AllQueued(s, order), id, n, receipt)
    decreases |order|
  {
    hide Enqueue;
    if order != [] {
      var front := order[..|order| - 1];
      AllQueuedKeeps(s, front, id, n, receipt);
      EnqueueFrame(AllQueued(s, front), order[|order| - 1], Unknown, "gateway_shutdown");
    }
  }

  lemma StepKeeps(s: State, op: Op, id: string, n: nat, receipt: Receipt)
    requires Inv(s) && Enabled(s, op) && Resolved(s, id, n, receipt) && Definite(receipt.status)
    ensures Resolved(Step(s, op), id, n, receipt)
  {
    hide Enqueue, Abandoned, AllQueued, Inv, Finished, Resolved;
    match op
    case Timeout(x, _) => QueuedKeeps(s, x, Unknown, "receipt_timeout", id, n, receipt);
    case Send(x, _, _, _) =>
      SameKeeps(s, s.(pending := s.pending + {x}), id, n, receipt);
      QueuedKeeps(s.(pending := s.pending + {x}), x, Unknown, "delivery_outcome_unknown", id, n, receipt);
    case Result(x, target, status, message, stale) =>
      ResultingKeeps(s, x, target, status, message, stale, id, n, receipt);
    case Abandon(order) => AbandonedKeeps(s, order, id, n, receipt);
    case Seal(order) =>
      AllQueuedKeeps(s, order, id, n, receipt);
      SameKeeps(AllQueued(s, order), Sealed(s, order), id, n, receipt);
    case Finish(accepted) => FinishedKeeps(s, accepted, id, n, receipt);
    case Observe(x, expected, callable, stopping) => ObservingKeeps(s, x, expected, callable, stopping, id, n, receipt);
    case _ => SameKeeps(s, Step(s, op), id, n, receipt);
  }

  lemma SameKeeps(s: State, s': State, id: string, n: nat, receipt: Receipt)
    requires s'.observers == s.observers && s'.settled == s.settled && Resolved(s, id, n, receipt)
    ensures Resolved(s', id, n, receipt)
  {
  }

  /** A definite receipt is deaf to whatever is queued after it. */
  lemma QueuedKeeps(s: State, x: string, status: Status, message: string, id: string, n: nat, receipt: Receipt)
    requires !status.Unset? && Resolved(s, id, n, receipt) && Definite(receipt.status)
    ensures Resolved(Enqueue(s, x, status, message), id, n, receipt)
  {
    hide Enqueue;
    EnqueueFrame(s, x, status, message);
  }

  lemma ResultingKeeps(s: State, x: string, target: Option<Identity>, status: Status, message: string, stale: bool,
                       id: string, n: nat, receipt: Receipt)
    requires Resolved(s, id, n, receipt) && Definite(receipt.status)
    ensures Resolved(Resulting(s, x, target, status, message, stale).0, id, n, receipt)
  {
    hide Enqueue;
    if !status.Unset? {
      QueuedKeeps(s, x, status, message, id, n, receipt);
    }
  }

  lemma ObservingKeeps(s: State, x: string, expected: Option<Identity>, callable: bool, stopping: bool,
                       id: string, n: nat, receipt: Receipt)
    requires Resolved(s, id, n, receipt)
    ensures Resolved(Observing(s, x, expected, callable, stopping).0, id, n, receipt)
  {
  }

  lemma FinishedKeeps(s: State, accepted: bool, id: string, n: nat, receipt: Receipt)
    requires Inv(s) && s.worker.Committing? && Resolved(s, id, n, receipt)
    ensures Resolved(Finished(s, accepted), id, n, receipt)
  {
    hide QueueOK, CountOK, SealOK, ObserverOK;
    AppliedOK(s);
  }

  /** A definite receipt is final. Whatever arrives later, however often a commit
      fails and whenever the process goes away, the registration keeps that receipt,
      and if it ends, it ends with that receipt applied. */
  lemma {:induction false} DefiniteIsFinal(s: State, ops: seq<Op>, id: string, n: nat, receipt: Receipt)
    requires Inv(s) && CanRun(s, ops) && Resolved(s, id, n, receipt) && Definite(receipt.status)
    ensures Resolved(Run(s, ops), id, n, receipt)
    decreases |ops|
  {
    hide Inv, Step, Enabled, Resolved;
    if ops != [] {
      StepInv(s, ops[0]);
      StepKeeps(s, ops[0], id, n, receipt);
      DefiniteIsFinal(Step(s, ops[0]), ops[1..], id, n, receipt);
    }
  }

  /** Whenever the queue is empty, the last receipt that was applied for each observer is its
      current one, and after shutdown no observer is without one; the queue is empty whenever
      the worker rests without a failed commit. */
  lemma DrainedIsApplied(identity: Identity, ops: seq<Op>, id: string)
    requires CanRun(Start(identity), ops) && id in Run(Start(identity), ops).observers
    ensures var s := Run(Start(identity), ops);
            && (s.worker.Resting? && !s.blocked ==> s.queue == [])
            && (s.queue == [] ==>
                  && (s.observers[id].receipt.status.Unset? ==> !s.shutdown && s.observers[id].applied == None)
                  && (!s.observers[id].receipt.status.Unset? ==>
                        && s.observers[id].receipt.status.Unknown?
                        && s.observers[id].applied == Some(s.observers[id].receipt)))
  {
    hide Run, CanRun;
    StartInv(identity);
    RunInv(Start(identity), ops);
    var s := Run(Start(identity), ops);
    hide CountOK;
    assert ObserverOK(s.observers[id]);
  }

  /** The receipt fields of a process. Each method is one locked region. */
  class ChordProcess {
    var identity: Identity
    var observers: Observers
    var queue: seq<string>
    var worker: Worker
    var blocked: bool
    var shutdown: bool
    var pending: set<string>
    var unconfirmed: int
    var registered: nat
    ghost var lost: nat
    ghost var settled: map<nat, Receipt>

    ghost function Abs(): State
      reads this
    {
      State(identity, observers, queue, worker, blocked, shutdown, pending, unconfirmed, registered, lost, settled)
    }

    ghost predicate Valid()
      reads this
    {
      Inv(Abs())
    }

    constructor (identity: Identity)
      ensures Valid() && Abs() == Start(identity)
    {
      this.identity := identity;
      observers, queue, worker, blocked, shutdown := map[], [], Resting, false, false;
      pending, unconfirmed, registered, lost, settled := {}, 0, 0, 0, map[];
      new;
      StartInv(identity);
    }

    /** ObserveInputReceipt */
    method ObserveInputReceipt(id: string, expected: Option<Identity>, callable: bool,
                               stopping: bool) returns (refusal: Option<Refusal>)
      requires Valid()
      modifies this
      ensures Valid() && (Abs(), refusal) == Observing(old(Abs()), id, expected, callable, stopping)
      ensures refusal.None? <==>
                && (expected.Some? ==> expected.value == identity) && id != "" && callable && !stopping
                && !old(shutdown) && !old(blocked) && |old(observers)| < 128 && id !in old(observers)
      ensures if refusal.None? then
                && id in observers && observers[id].identity == identity && Listening(Abs(), id)
                && observers[id].receipt.status.Unset? && !observers[id].queued && observers - {id} == old(observers)
              else Abs() == old(Abs())
    {
      hide Inv;
      ObservingInv(Abs(), id, expected, callable, stopping);
      if expected.Some? && expected.value != identity {
        return Some(IdentityChanged);
      }
      if id == "" || !callable {
        return Some(InvalidObserver);
      }
      if stopping {
        return Some(ManagerShuttingDown);
      }
      if shutdown || blocked || |observers| >= MAX_PENDING_INPUTS {
        return Some(Backpressure);
      }
      if id in observers {
        return Some(AlreadyRegistered);
      }
      observers := observers[id := Observer(identity, Receipt(Unset, ""), 0, false, false, registered, None)];
      registered := registered + 1;
      return None;
    }

    /** The message is cut to 512 bytes, and further until it is valid UTF-8. */
    method Clip(message: string) returns (r: string)
      ensures r == Clipped(message)
    {
      if |message| <= MAX_MESSAGE_BYTES {
        return message;
      }
      r := message[..MAX_MESSAGE_BYTES];
      while !Utf8.Valid(r)
        invariant ValidFront(r) == ValidFront(message[..MAX_MESSAGE_BYTES])
        decreases |r|
      {
        r := r[..|r| - 1];
      }
    }

    method StartInputReceiptWorker()
      modifies this`worker
      ensures Abs() == Woken(old(Abs()))
    {
      if !worker.Resting? || |queue| == 0 {
        return;
      }
      worker := Running;
    }

    /** The second half of queueInputReceiptLocked. */
    method List(id: string, observer: Observer)
      modifies this
      ensures Abs() == Listed(old(Abs()), id, observer)
    {
      hide Woken;
      if observer.queued {
        observers := observers[id := observer];
      } else if |queue| >= MAX_PENDING_INPUTS {
        observers, blocked := observers[id := observer], true;
        return;
      } else {
        observers, queue := observers[id := observer.(queued := true)], queue + [id];
      }
      StartInputReceiptWorker();
    }

    /** queueInputReceiptLocked */
    method QueueInputReceipt(id: string, status: Status, message: string)
      requires Valid() && !status.Unset?
      modifies this
      ensures Valid() && Abs() == Enqueue(old(Abs()), id, status, message)
      ensures if Listening(old(Abs()), id) then Receives(old(Abs()), Abs(), id, status, message)
              else Abs() == old(Abs())
    {
      hide Inv, Clipped, Listed, Receives;
      if Listening(Abs(), id) {
        EnqueueReceives(Abs(), id, status, message);
      } else {
        DeafSame(Abs(), id, status, message);
      }
      EnqueueInv(Abs(), id, status, message);
      if id !in observers || shutdown {
        return;
      }
      var observer := observers[id];
      if !observer.receipt.status.Unset? && !observer.receipt.status.Unknown? {
        return;
      }
      var clipped := Clip(message);
      if status.Unknown? && !observer.unconfirmed {
        unconfirmed := unconfirmed + 1;
      }
      List(id, observer.(unconfirmed := observer.unconfirmed || status.Unknown?, receipt := Receipt(status, clipped),
                         version := observer.version + 1));
    }

    /** SendUserMessageWithRequestID */
    method SendUserMessage(id: string, done: bool, accepting: bool, written: bool) returns (refusal: Option<Refusal>)
      requires Valid()
      modifies this
      ensures Valid() && (Abs(), refusal) == Sending(old(Abs()), id, done, accepting, written)
      ensures SendOutcome(old(Abs()), Abs(), refusal.Some?, id, done, accepting, written)
    {
      hide Inv, Enqueue, SendOutcome;
      SendMeaning(Abs(), id, done, accepting, written);
      SendingInv(Abs(), id, done, accepting, written);
      if id == "" {
        return Some(EmptyID);
      }
      if blocked {
        return Some(Backpressure);
      }
      if id in pending {
        return Some(AlreadyPending);
      }
      if id in observers {
        if done {
          return Some(DonePending);
        }
        if observers[id].identity != identity {
          return Some(IdentityChanged);
        }
        if !observers[id].receipt.status.Unset? {
          return Some(AlreadyResolved);
        }
      }
      if !accepting {
        return Some(NotAccepting);
      }
      if |pending| >= MAX_PENDING_INPUTS {
        return Some(TooManyPending);
      }
      SendingInv(Abs(), id, done, accepting, true);
      pending := pending + {id};
      if written {
        return None;
      }
      if id !in observers {
        pending := pending - {id};
        assert pending == old(pending);
      } else {
        QueueInputReceipt(id, Unknown, "delivery_outcome_unknown");
      }
      return Some(WriteFailed);
    }

    /** applyInputResult */
    method ApplyInputResult(id: string, target: Option<Identity>, status: Status, message: string, stale: bool)
      returns (applied: bool)
      requires Valid()
      modifies this
      ensures Valid() && (Abs(), applied) == Resulting(old(Abs()), id, target, status, message, stale)
      ensures ResultOutcome(old(Abs()), Abs(), applied, id, target, status, message, stale)
    {
      hide Inv, Enqueue, ResultOutcome;
      ResultMeaning(Abs(), id, target, status, message, stale);
      ResultingInv(Abs(), id, target, status, message, stale);
      if target.Some? && target.value != identity {
        return false;
      }
      if status.Unset? {
        return false;
      }
      if id in observers && observers[id].identity != identity {
        return false;
      }
      var observed := id in observers;
      if observed {
        QueueInputReceipt(id, status, message);
      }
      if !observed && id !in pending {
        return false;
      }
      if !observed {
        pending := pending - {id};
      }
      if status.Unknown? {
        if !observed {
          unconfirmed, lost := unconfirmed + 1, lost + 1;
        }
        return true;
      }
      return !stale;
    }

    /** One input whose outcome is unknown for good. */
    method GiveUp(id: string)
      requires Valid()
      modifies this
      ensures Valid() && Abs() == GivenUp(old(Abs()), id)
    {
      hide Inv, Enqueue;
      GivenUpInv(Abs(), id);
      if id !in observers {
        unconfirmed, lost, pending := unconfirmed + 1, lost + 1, pending - {id};
      } else {
        QueueInputReceipt(id, Unknown, "process_exited");
      }
    }

    /** abandonPendingInputs */
    method AbandonPendingInputs() returns (ghost order: seq<string>)
      requires Valid()
      modifies this
      ensures Valid() && Enumerates(order, old(pending)) && Abs() == Abandoned(old(Abs()), order)
      ensures EachReceives(old(Abs()), Abs(), order, Receipt(Unknown, "process_exited"))
      ensures pending == old(pending) - Unobserved(old(Abs()), order)
              && lost == old(lost) + |Unobserved(old(Abs()), order)|
    {
      hide Inv, GivenUp, EachReceives, Unobserved;
      var left := pending;
      order := [];
      while left != {}
        invariant left <= old(pending) && Enumerates(order, old(pending) - left)
        invariant Valid() && Abs() == Abandoned(old(Abs()), order)
        decreases left
      {
        var id: string :| id in left;
        Appended(order, old(pending) - left, id);
        GiveUp(id);
        left := left - {id};
        order := order + [id];
        assert old(pending) - left == old(pending) - (left + {id}) + {id};
      }
      AbandonedMeaning(old(Abs()), order);
    }

    /** WaitInputReceiptsShutdown, up to waiting for the worker. */
    method SealInputReceipts() returns (ghost order: seq<string>)
      requires Valid()
      modifies this
      ensures Valid() && Enumerates(order, old(observers).Keys) && Abs() == Sealed(old(Abs()), order)
      ensures shutdown && observers == AllQueued(old(Abs()), order).observers
      ensures EachReceives(old(Abs()), AllQueued(old(Abs()), order), order, Receipt(Unknown, "gateway_shutdown"))
    {
      hide Inv, Enqueue, Woken, AllQueued, EachReceives;
      var left := observers.Keys;
      order := [];
      NothingQueued(Abs());
      while left != {}
        invariant left <= old(observers).Keys && Enumerates(order, old(observers).Keys - left)
        invariant Valid() && Abs() == AllQueued(old(Abs()), order)
        decreases left
      {
        var id: string :| id in left;
        Appended(order, old(observers).Keys - left, id);
        AllQueuedPush(old(Abs()), order, id);
        QueueInputReceipt(id, Unknown, "gateway_shutdown");
        left := left - {id};
        order := order + [id];
        assert old(observers).Keys - left == old(observers).Keys - (left + {id}) + {id};
      }
      SealedInv(old(Abs()), order);
      AllQueuedMeaning(old(Abs()), order);
      shutdown := true;
      StartInputReceiptWorker();
    }

    /** The locked region at the top of flushInputReceipts. */
    method NextReceipt() returns (more: bool)
      requires Valid() && worker.Running?
      modifies this
      ensures Valid() && Abs() == Picked(old(Abs()))
      ensures more <==> worker.Committing?
      ensures more <==> old(queue) != []
      ensures if more then
                && queue == old(queue) && queue[0] in observers && observers == old(observers)
                && worker == Committing(queue[0], observers[queue[0]].receipt, observers[queue[0]].version)
              else worker.Resting? && !blocked && observers == old(observers)
    {
      hide Inv;
      PickedInv(Abs());
      if |queue| == 0 {
        worker := Resting;
        blocked := false;
        return false;
      }
      var id := queue[0];
      worker := Committing(id, observers[id].receipt, observers[id].version);
      return true;
    }

    /** The locked region after the commit callback. */
    method ReceiptCommitted(accepted: bool)
      requires Valid() && worker.Committing?
      modifies this
      ensures Valid() && Abs() == Finished(old(Abs()), accepted)
      ensures CommitOutcome(old(Abs()), Abs(), accepted)
    {
      hide Inv, ObserverOK, CommitOutcome;
      FinishedMeaning(Abs(), accepted);
      FinishedInv(Abs(), accepted);
      AppliedOK(Abs());
      if !accepted {
        blocked, worker := true, Resting;
        return;
      }
      var Committing(id, receipt, version) := worker;
      var observer := observers[id].(applied := Some(receipt));
      if observer.version != version {
        observers, worker := observers[id := observer], Running;
        return;
      }
      if receipt.status.Unknown? {
        observers, queue, worker := observers[id := observer.(queued := false)], queue[1..], Running;
        return;
      }
      SettledStatus(old(Abs()));
      var count := if observer.unconfirmed && unconfirmed > 0 then unconfirmed - 1 else unconfirmed;
      observers, queue, worker, pending, unconfirmed, settled :=
        observers - {id}, queue[1..], Running, pending - {id}, count, settled[observer.serial := receipt];
    }
  }

  lemma NothingQueued(s: State)
    ensures AllQueued(s, []) == s
  {
  }

  lemma AllQueuedPush(s: State, order: seq<string>, id: string)
    ensures AllQueued(s, order + [id]) == Enqueue(AllQueued(s, order), id, Unknown, "gateway_shutdown")
  {
    hide Enqueue;
    assert (order + [id])[..|order|] == order;
  }

  lemma Appended(order: seq<string>, ids: set<string>, id: string)
    requires Enumerates(order, ids) && id !in ids
    ensures Enumerates(order + [id], ids + {id}) && (order + [id])[..|order|] == order
  {
    assert id !in (set x | x in order);
    assert (set x | x in order + [id]) == (set x | x in order) + {id};
  }

  lemma SettledStatus(s: State)
    requires Inv(s) && s.worker.Committing?
    ensures !s.worker.receipt.status.Unset?
  {
  }
}
