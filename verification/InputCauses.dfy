/** Where receipts come from: over every run each receipt of a registration was given by
    an event of the run (internal/gateway/process_input_observer.go:44-212,
    internal/gateway/process_input.go:39-149). */
module InputCauses {
  import opened InputReceipts

  /** An event of a run, with the state it met. */
  datatype Past = Past(state: State, op: Op)

  /** This event registered the observer with this number. */
  ghost predicate Registers(p: Past, n: nat, id: string, identity: Identity) {
    p.op.Observe? && p.op.id == id && p.state.identity == identity && p.state.registered == n
  }

  /** This event gave an input of this process this receipt: the process answered so, or the
      outcome became unknown. */
  ghost predicate Gives(p: Past, id: string, identity: Identity, receipt: Receipt) {
    match p.op
    case Result(x, target, status, message, _) =>
      x == id && p.state.identity == identity && (target.Some? ==> target.value == identity)
      && receipt.status == status && IsClip(message, receipt.message)
    case Timeout(x, _) => x == id && receipt == Receipt(Unknown, "receipt_timeout")
    case Send(x, _, _, written) => x == id && !written && receipt == Receipt(Unknown, "delivery_outcome_unknown")
    case Abandon(order) => id in order && receipt == Receipt(Unknown, "process_exited")
    case Seal(order) => id in order && receipt == Receipt(Unknown, "gateway_shutdown")
    case _ => false
  }

  ghost predicate Known(past: seq<Past>, n: nat, id: string, identity: Identity) {
    exists r :: 0 <= r < |past| && Registers(past[r], n, id, identity)
  }

  /** The registration received this after it was made. */
  ghost predicate Given(past: seq<Past>, n: nat, id: string, identity: Identity, receipt: Receipt) {
    exists r, i :: 0 <= r < i < |past| && Registers(past[r], n, id, identity) && Gives(past[i], id, identity, receipt)
  }

  ghost predicate ObserverGiven(past: seq<Past>, id: string, o: Observer) {
    && Known(past, o.serial, id, o.identity)
    && (!o.receipt.status.Unset? ==> Given(past, o.serial, id, o.identity, o.receipt))
    && (o.applied.Some? ==> Given(past, o.serial, id, o.identity, o.applied.value))
  }

  ghost predicate SettledGiven(past: seq<Past>, n: nat, receipt: Receipt) {
    exists id, identity :: Given(past, n, id, identity, receipt)
  }

  /** Every receipt that is held, applied, being committed or settled was given. */
  ghost predicate AllGiven(s: State, past: seq<Past>) {
    && (forall id <- s.observers :: ObserverGiven(past, id, s.observers[id]))
    && (forall n <- s.settled :: SettledGiven(past, n, s.settled[n]))
    && (s.worker.Committing? && s.worker.id in s.observers ==>
          Given(past, s.observers[s.worker.id].serial, s.worker.id, s.observers[s.worker.id].identity,
                s.worker.receipt))
  }

  lemma StillKnown(past: seq<Past>, p: Past, n: nat, id: string, identity: Identity)
    requires Known(past, n, id, identity)
    ensures Known(past + [p], n, id, identity)
  {
    hide Registers;
    var r :| 0 <= r < |past| && Registers(past[r], n, id, identity);
    assert (past + [p])[r] == past[r];
  }

  lemma StillGiven(past: seq<Past>, p: Past, n: nat, id: string, identity: Identity, receipt: Receipt)
    requires Given(past, n, id, identity, receipt)
    ensures Given(past + [p], n, id, identity, receipt)
  {
    hide Registers, Gives;
    var r, i :| 0 <= r < i < |past| && Registers(past[r], n, id, identity) && Gives(past[i], id, identity, receipt);
    assert (past + [p])[r] == past[r] && (past + [p])[i] == past[i];
  }

  lemma NowGiven(past: seq<Past>, p: Past, n: nat, id: string, identity: Identity, receipt: Receipt)
    requires Known(past, n, id, identity) && Gives(p, id, identity, receipt)
    ensures Given(past + [p], n, id, identity, receipt)
  {
    hide Registers, Gives;
    var r :| 0 <= r < |past| && Registers(past[r], n, id, identity);
    assert (past + [p])[r] == past[r] && (past + [p])[|past|] == p;
  }

  lemma StillObserved(past: seq<Past>, p: Past, id: string, o: Observer)
    requires ObserverGiven(past, id, o)
    ensures ObserverGiven(past + [p], id, o)
  {
    hide Known, Given;
    StillKnown(past, p, o.serial, id, o.identity);
    if !o.receipt.status.Unset? {
      StillGiven(past, p, o.serial, id, o.identity, o.receipt);
    }
    if o.applied.Some? {
      StillGiven(past, p, o.serial, id, o.identity, o.applied.value);
    }
  }

  lemma StillAllGiven(s: State, past: seq<Past>, p: Past)
    requires AllGiven(s, past)
    ensures AllGiven(s, past + [p])
  {
    hide ObserverGiven, Given;
    forall id | id in s.observers
      ensures ObserverGiven(past + [p], id, s.observers[id])
    {
      StillObserved(past, p, id, s.observers[id]);
    }
    forall n | n in s.settled
      ensures SettledGiven(past + [p], n, s.settled[n])
    {
      var id, identity :| Given(past, n, id, identity, s.settled[n]);
      StillGiven(past, p, n, id, identity, s.settled[n]);
    }
    if s.worker.Committing? && s.worker.id in s.observers {
      var o := s.observers[s.worker.id];
      StillGiven(past, p, o.serial, s.worker.id, o.identity, s.worker.receipt);
    }
  }

  /** The observers of `s'` are those of `s`, or they took a receipt that `p` gives. */
  ghost predicate TookOnly(s: State, s': State, p: Past) {
    && s'.observers.Keys == s.observers.Keys && s'.settled == s.settled
    && (s'.worker.Committing? ==> s'.worker == s.worker)
    && forall id <- s.observers ::
         var o, o' := s.observers[id], s'.observers[id];
         && o'.serial == o.serial && o'.identity == o.identity && o'.applied == o.applied
         && (o'.receipt == o.receipt || Gives(p, id, o.identity, o'.receipt))
  }

  lemma TookGiven(s: State, s': State, past: seq<Past>, p: Past)
    requires AllGiven(s, past) && TookOnly(s, s', p)
    ensures AllGiven(s', past + [p])
  {
    hide Given, Gives, Known;
    StillAllGiven(s, past, p);
    forall id | id in s'.observers
      ensures ObserverGiven(past + [p], id, s'.observers[id])
    {
      var o, o' := s.observers[id], s'.observers[id];
      if o'.receipt != o.receipt {
        assert ObserverGiven(past, id, o);
        NowGiven(past, p, o.serial, id, o.identity, o'.receipt);
      }
      assert ObserverGiven(past + [p], id, o);
    }
  }

  /** What is queued for one input is all that its observer takes. */
  lemma EnqueueTook(s: State, id: string, status: Status, message: string, p: Past)
    requires id in s.observers ==>
               Gives(p, id, s.observers[id].identity, Receipt(status, Clipped(message)))
    ensures TookOnly(s, Enqueue(s, id, status, message), p)
  {
    hide Clipped, Gives;
  }

  lemma SameTook(s: State, s': State, p: Past)
    requires s'.observers == s.observers && s'.settled == s.settled && (s'.worker.Committing? ==> s'.worker == s.worker)
    ensures TookOnly(s, s', p)
  {
    hide Gives;
  }

  lemma TookTwice(a: State, b: State, c: State, p: Past)
    requires TookOnly(a, b, p) && TookOnly(b, c, p)
    ensures TookOnly(a, c, p)
  {
    hide Gives;
  }

  lemma Short(message: string)
    requires |message| <= MAX_MESSAGE_BYTES
    ensures Clipped(message) == message
  {
  }

  lemma {:induction false} AllQueuedTook(s: State, order: seq<string>, p: Past)
    requires forall id <- order, identity :: Gives(p, id, identity, Receipt(Unknown, "gateway_shutdown"))
    ensures TookOnly(s, AllQueued(s, order), p)
    decreases |order|
  {
    hide Enqueue, Gives, TookOnly;
    if order == [] {
      SameTook(s, s, p);
    } else {
      var front, last := order[..|order| - 1], order[|order| - 1];
      AllQueuedTook(s, front, p);
      Short("gateway_shutdown");
      EnqueueTook(AllQueued(s, front), last, Unknown, "gateway_shutdown", p);
      TookTwice(s, AllQueued(s, front), Enqueue(AllQueued(s, front), last, Unknown, "gateway_shutdown"), p);
    }
  }

  lemma {:induction false} AbandonedTook(s: State, order: seq<string>, p: Past)
    requires forall id <- order, identity :: Gives(p, id, identity, Receipt(Unknown, "process_exited"))
    ensures TookOnly(s, Abandoned(s, order), p)
    decreases |order|
  {
    hide Enqueue, Gives, TookOnly;
    if order == [] {
      SameTook(s, s, p);
    } else {
      var front, last := order[..|order| - 1], order[|order| - 1];
      AbandonedTook(s, front, p);
      Short("process_exited");
      var before := Abandoned(s, front);
      EnqueueTook(before, last, Unknown, "process_exited", p);
      if last !in before.observers {
        SameTook(before, GivenUp(before, last), p);
      }
      TookTwice(s, before, GivenUp(before, last), p);
    }
  }

  lemma ResultTook(s: State, op: Op)
    requires op.Result?
    ensures TookOnly(s, Step(s, op), Past(s, op))
  {
    hide Enqueue, TookOnly, IsClip, Clipped;
    var Result(id, target, status, message, stale) := op;
    ClippedMeaning(message);
    if id in s.observers && Matches(s, id) && (target.Some? ==> target.value == s.identity) {
      EnqueueTook(s, id, status, message, Past(s, op));
    }
    if Step(s, op).observers == s.observers && Step(s, op).settled == s.settled && Step(s, op).worker == s.worker {
      SameTook(s, Step(s, op), Past(s, op));
    }
  }

  lemma SendTook(s: State, op: Op)
    requires op.Send?
    ensures TookOnly(s, Step(s, op), Past(s, op))
  {
    hide Enqueue, TookOnly;
    var Send(id, done, accepting, written) := op;
    Short("delivery_outcome_unknown");
    var sent := s.(pending := s.pending + {id});
    SameTook(s, s, Past(s, op));
    SameTook(s, sent, Past(s, op));
    if !written {
      EnqueueTook(sent, id, Unknown, "delivery_outcome_unknown", Past(s, op));
      TookTwice(s, sent, Enqueue(sent, id, Unknown, "delivery_outcome_unknown"), Past(s, op));
    }
  }

  lemma ObserveGiven(s: State, op: Op, past: seq<Past>)
    requires Inv(s) && AllGiven(s, past) && op.Observe?
    ensures AllGiven(Step(s, op), past + [Past(s, op)])
  {
    hide Given, ObserversOK, QueueOK, CountOK, SealOK;
    var p := Past(s, op);
    var s' := Step(s, op);
    StillAllGiven(s, past, p);
    if s' != s {
      assert (past + [p])[|past|] == p && Registers(p, s.registered, op.id, s.identity);
      assert ObserverGiven(past + [p], op.id, s'.observers[op.id]);
      hide ObserverGiven;
      forall id | id in s'.observers
        ensures ObserverGiven(past + [p], id, s'.observers[id])
      {
        assert id != op.id ==> s'.observers[id] == s.observers[id];
      }
    }
  }

  lemma PickGiven(s: State, past: seq<Past>)
    requires Inv(s) && AllGiven(s, past) && s.worker.Running?
    ensures AllGiven(Picked(s), past + [Past(s, Pick)])
  {
    hide Given, Known, SettledGiven, WorkerOK, CountOK, SealOK;
    StillAllGiven(s, past, Past(s, Pick));
    if s.queue != [] {
      var id := s.queue[0];
      assert id in s.queue;
      assert ObserverOK(s.observers[id]);
      assert ObserverGiven(past + [Past(s, Pick)], id, s.observers[id]);
    }
  }

  lemma FinishGiven(s: State, op: Op, past: seq<Past>)
    requires Inv(s) && AllGiven(s, past) && op.Finish? && s.worker.Committing?
    ensures AllGiven(Step(s, op), past + [Past(s, op)])
  {
    hide Given, Known, ObserversOK, QueueOK, CountOK, SealOK;
    var p := Past(s, op);
    StillAllGiven(s, past, p);
    var id := s.worker.id;
    assert ObserverGiven(past + [p], id, s.observers[id]);
    var s' := Step(s, op);
    forall x | x in s'.observers
      ensures ObserverGiven(past + [p], x, s'.observers[x])
    {
      assert ObserverGiven(past + [p], x, s.observers[x]);
    }
    hide ObserverGiven;
    forall n | n in s'.settled
      ensures SettledGiven(past + [p], n, s'.settled[n])
    {
      assert n in s.settled && s'.settled[n] == s.settled[n] ==> SettledGiven(past + [p], n, s.settled[n]);
    }
  }

  lemma StepGiven(s: State, op: Op, past: seq<Past>)
    requires Inv(s) && Enabled(s, op) && AllGiven(s, past)
    ensures AllGiven(Step(s, op), past + [Past(s, op)])
  {
    hide Inv, AllGiven, Enqueue, TookOnly, Gives, Clipped, Observing, Sending, Resulting, Picked, Finished, Abandoned;
    var p := Past(s, op);
    match op
    case Observe(_, _, _, _) => ObserveGiven(s, op, past);
    case Pick => PickGiven(s, past);
    case Finish(_) => FinishGiven(s, op, past);
    case Timeout(id, _) =>
      Short("receipt_timeout");
      TimeoutTook(s, op);
      TookGiven(s, Step(s, op), past, p);
    case Send(_, _, _, _) =>
      SendTook(s, op);
      TookGiven(s, Step(s, op), past, p);
    case Result(_, _, _, _, _) =>
      ResultTook(s, op);
      TookGiven(s, Step(s, op), past, p);
    case Abandon(order) =>
      GivenByAll(s, op, order);
      AbandonedTook(s, order, p);
      TookGiven(s, Step(s, op), past, p);
    case Seal(order) =>
      GivenByAll(s, op, order);
      AllQueuedTook(s, order, p);
      SameTook(AllQueued(s, order), Sealed(s, order), p);
      TookTwice(s, AllQueued(s, order), Sealed(s, order), p);
      TookGiven(s, Step(s, op), past, p);
    case _ =>
      SameTook(s, Step(s, op), p);
      TookGiven(s, Step(s, op), past, p);
  }

  lemma TimeoutTook(s: State, op: Op)
    requires op.Timeout?
    ensures TookOnly(s, Step(s, op), Past(s, op))
  {
    hide Enqueue, TookOnly;
    Short("receipt_timeout");
    SameTook(s, s, Past(s, op));
    EnqueueTook(s, op.id, Unknown, "receipt_timeout", Past(s, op));
  }

  lemma GivenByAll(s: State, op: Op, order: seq<string>)
    ensures op == Abandon(order) ==>
              forall id <- order, identity :: Gives(Past(s, op), id, identity, Receipt(Unknown, "process_exited"))
    ensures op == Seal(order) ==>
              forall id <- order, identity :: Gives(Past(s, op), id, identity, Receipt(Unknown, "gateway_shutdown"))
  {
  }

  /** The events of a run with the states they meet. */
  ghost function History(s: State, ops: seq<Op>): seq<Past>
    requires CanRun(s, ops)
    decreases |ops|
  {
    if ops == [] then [] else [Past(s, ops[0])] + History(Step(s, ops[0]), ops[1..])
  }

  lemma {:induction false} RunGiven(s: State, ops: seq<Op>, past: seq<Past>)
    requires Inv(s) && CanRun(s, ops) && AllGiven(s, past)
    ensures AllGiven(Run(s, ops), past + History(s, ops))
    decreases |ops|
  {
    hide Inv, Step, Enabled, AllGiven;
    if ops == [] {
      assert past + [] == past;
    } else {
      StepInv(s, ops[0]);
      StepGiven(s, ops[0], past);
      RunGiven(Step(s, ops[0]), ops[1..], past + [Past(s, ops[0])]);
      assert past + [Past(s, ops[0])] + History(Step(s, ops[0]), ops[1..]) == past + History(s, ops);
    }
  }

  /** Over every run, whatever receipt is held, applied or settled for a registration was given
      to its input by an event after it was registered: a result of the process that had its
      identity, with that status and message, or a timeout, a failed write, the end of the
      process or shutdown, all of which leave the outcome unknown. */
  lemma EveryReceiptIsGiven(identity: Identity, ops: seq<Op>)
    requires CanRun(Start(identity), ops)
    ensures var s, past := Run(Start(identity), ops), History(Start(identity), ops);
            && (forall id <- s.observers ::
                  var o := s.observers[id];
                  && Known(past, o.serial, id, o.identity)
                  && (!o.receipt.status.Unset? ==> Given(past, o.serial, id, o.identity, o.receipt))
                  && (o.applied.Some? ==> Given(past, o.serial, id, o.identity, o.applied.value)))
            && forall n <- s.settled :: exists id, from :: Given(past, n, id, from, s.settled[n])
  {
    hide Run, CanRun, History, Given, Known, Inv;
    StartInv(identity);
    assert AllGiven(Start(identity), []);
    RunGiven(Start(identity), ops, []);
    var s, past := Run(Start(identity), ops), History(Start(identity), ops);
    assert [] + past == past;
    forall id | id in s.observers
      ensures ObserverGiven(past, id, s.observers[id])
    {
    }
    forall n | n in s.settled
      ensures SettledGiven(past, n, s.settled[n])
    {
    }
  }
}
