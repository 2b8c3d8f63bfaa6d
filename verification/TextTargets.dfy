/** Ordering slots of text targets, and sending the segments of one text while
    holding one (internal/im/im_text_send.go:82-86, 115-235).

    An entry is a number; the locked regions of AcquireTarget and its channel
    operations are the steps, and the calls interleave. */
module TextTargets {

  datatype Option<+T> = None | Some(value: T)

  /** The channel of capacity one, full or not, and the number of calls that use it. */
  datatype Slot = Slot(full: bool, refs: int)

  datatype Phase = Waiting | Holding | Freed | GivenUp

  datatype Call = Call(target: string, entry: nat, phase: Phase)

  datatype State = State(targets: map<string, nat>, slots: map<nat, Slot>, calls: map<nat, Call>, next: nat)

  const START := State(map[], map[], map[], 0)

  datatype Op = Enter(id: nat, target: string) | Take(id: nat) | GiveUp(id: nat) | Free(id: nat) | Unref(id: nat)

  predicate Enabled(s: State, op: Op) {
    match op
    case Enter(id, _) => id !in s.calls
    case Take(id) => id in s.calls && s.calls[id].phase.Waiting? && s.calls[id].entry in s.slots
      && !s.slots[s.calls[id].entry].full
    case GiveUp(id) => id in s.calls && s.calls[id].phase.Waiting?
    case Free(id) => id in s.calls && s.calls[id].phase.Holding? && s.calls[id].entry in s.slots
      && s.slots[s.calls[id].entry].full
    case Unref(id) =>
      id in s.calls && (s.calls[id].phase.Freed? || s.calls[id].phase.GivenUp?) && s.calls[id].entry in s.slots
  }

  /** The entry that serves a target from now on. */
  function Serving(s: State, target: string): State {
    if target in s.targets then s
    else s.(targets := s.targets[target := s.next], slots := s.slots[s.next := Slot(false, 0)], next := s.next + 1)
  }

  function InPhase(s: State, id: nat, phase: Phase): map<nat, Call>
    requires id in s.calls
  {
    s.calls[id := Call(s.calls[id].target, s.calls[id].entry, phase)]
  }

  function Step(s: State, op: Op): State
    requires Enabled(s, op)
  {
    match op
    case Enter(id, target) =>
      var t := Serving(s, target);
      var entry := t.targets[target];
      if entry !in t.slots then t
      else t.(slots := t.slots[entry := Slot(t.slots[entry].full, t.slots[entry].refs + 1)],
              calls := t.calls[id := Call(target, entry, Waiting)])
    case Take(id) =>
      var entry := s.calls[id].entry;
      s.(slots := s.slots[entry := Slot(true, s.slots[entry].refs)], calls := InPhase(s, id, Holding))
    case GiveUp(id) => s.(calls := InPhase(s, id, GivenUp))
    case Free(id) =>
      var entry := s.calls[id].entry;
      s.(slots := s.slots[entry := Slot(false, s.slots[entry].refs)], calls := InPhase(s, id, Freed))
    case Unref(id) =>
      var Call(target, entry, _) := s.calls[id];
      var refs := s.slots[entry].refs - 1;
      s.(slots := s.slots[entry := Slot(s.slots[entry].full, refs)], calls := s.calls - {id},
         targets := if refs == 0 then s.targets - {target} else s.targets)
  }

  // The invariant

  ghost function Users(calls: map<nat, Call>, entry: nat): set<nat> {
    set id | id in calls && calls[id].entry == entry
  }

  /** All calls for a target share the entry that the table has for it. */
  ghost predicate CallsOK(s: State) {
    forall id <- s.calls :: s.calls[id].target in s.targets && s.targets[s.calls[id].target] == s.calls[id].entry
  }

  /** A target is in the table while it has users, which its entry counts. */
  ghost predicate TargetsOK(s: State) {
    && (forall t <- s.targets ::
          s.targets[t] in s.slots && s.slots[s.targets[t]].refs == |Users(s.calls, s.targets[t])| > 0)
    && (forall t <- s.targets, u <- s.targets :: s.targets[t] == s.targets[u] ==> t == u)
    && (forall e <- s.slots :: e < s.next)
  }

  /** The channel of an entry is full exactly while one call holds it. */
  ghost predicate HoldersOK(s: State) {
    && (forall id <- s.calls ::
          s.calls[id].entry in s.slots && (s.calls[id].phase.Holding? ==> s.slots[s.calls[id].entry].full))
    && (forall e <- s.slots :: s.slots[e].full ==>
        exists id :: id in s.calls && s.calls[id].entry == e && s.calls[id].phase.Holding?)
    && (forall a <- s.calls, b <- s.calls ::
          s.calls[a].phase.Holding? && s.calls[b].phase.Holding? && s.calls[a].entry == s.calls[b].entry ==> a == b)
  }

  ghost predicate Inv(s: State) {
    CallsOK(s) && TargetsOK(s) && HoldersOK(s)
  }

  lemma UserAdded(calls: map<nat, Call>, id: nat, call: Call, entry: nat)
    requires id !in calls
    ensures |Users(calls[id := call], entry)| == |Users(calls, entry)| + if call.entry == entry then 1 else 0
  {
    if call.entry == entry {
      assert Users(calls[id := call], entry) == Users(calls, entry) + {id};
    } else {
      assert Users(calls[id := call], entry) == Users(calls, entry);
    }
  }

  lemma UserGone(calls: map<nat, Call>, id: nat, entry: nat)
    requires id in calls
    ensures |Users(calls - {id}, entry)| == |Users(calls, entry)| - if calls[id].entry == entry then 1 else 0
  {
    if calls[id].entry == entry {
      assert Users(calls - {id}, entry) == Users(calls, entry) - {id};
    } else {
      assert Users(calls - {id}, entry) == Users(calls, entry);
    }
  }

  lemma SameUsers(calls: map<nat, Call>, id: nat, phase: Phase, entry: nat)
    requires id in calls
    ensures Users(calls[id := Call(calls[id].target, calls[id].entry, phase)], entry) == Users(calls, entry)
  {
  }

  lemma NoUsers(s: State, entry: nat)
    requires Inv(s) && entry >= s.next
    ensures Users(s.calls, entry) == {}
  {
  }

  /** Steps that leave the table's targets and their users alone. */
  predicate Moves(op: Op) {
    op.Take? || op.GiveUp? || op.Free?
  }

  lemma CallsStep(s: State, op: Op)
    requires Inv(s) && Enabled(s, op)
    ensures CallsOK(Step(s, op))
  {
    if op.Unref? && s.slots[s.calls[op.id].entry].refs == 1 {
      StillUsed(s, op.id);
    }
    hide Users, HoldersOK;
  }

  /** An entry that loses its last user has no other call. */
  lemma StillUsed(s: State, id: nat)
    requires Inv(s) && Enabled(s, Unref(id)) && s.slots[s.calls[id].entry].refs == 1
    ensures forall other <- s.calls :: other != id ==> s.calls[other].entry != s.calls[id].entry
  {
    var users := Users(s.calls, s.calls[id].entry);
    assert id in users && |users| == 1;
    forall other | other in s.calls && other != id
      ensures s.calls[other].entry != s.calls[id].entry
    {
      if s.calls[other].entry == s.calls[id].entry {
        assert {id, other} <= users;
        SmallerSet({id, other}, users);
      }
    }
  }

  lemma SmallerSet(a: set<nat>, b: set<nat>)
    requires a <= b
    ensures |a| <= |b|
  {
    assert b == a + (b - a);
  }

  lemma HoldersStep(s: State, op: Op)
    requires Inv(s) && Enabled(s, op)
    ensures HoldersOK(Step(s, op))
  {
    hide Users;
    match op
    case Enter(id, target) => HoldersEnter(s, id, target);
    case Take(id) => HoldersTake(s, id);
    case GiveUp(id) => HoldersGiveUp(s, id);
    case Free(id) => HoldersFree(s, id);
    case Unref(id) => HoldersUnref(s, id);
  }

  lemma HoldersEnter(s: State, id: nat, target: string)
    requires Inv(s) && Enabled(s, Enter(id, target))
    ensures HoldersOK(Step(s, Enter(id, target)))
  {
    hide Users, CallsOK;
    var after := Step(s, Enter(id, target));
    forall e | e in after.slots && after.slots[e].full
      ensures exists holder ::
                holder in after.calls && after.calls[holder].entry == e && after.calls[holder].phase.Holding?
    {
      var holder :| holder in s.calls && s.calls[holder].entry == e && s.calls[holder].phase.Holding?;
      assert after.calls[holder] == s.calls[holder];
    }
  }

  lemma HoldersTake(s: State, id: nat)
    requires Inv(s) && Enabled(s, Take(id))
    ensures HoldersOK(Step(s, Take(id)))
  {
    hide Users, CallsOK, TargetsOK;
    var after := Step(s, Take(id));
    forall e | e in after.slots && after.slots[e].full
      ensures exists holder ::
                holder in after.calls && after.calls[holder].entry == e && after.calls[holder].phase.Holding?
    {
      if e == s.calls[id].entry {
        assert after.calls[id].phase.Holding?;
      } else {
        var holder :| holder in s.calls && s.calls[holder].entry == e && s.calls[holder].phase.Holding?;
        assert after.calls[holder] == s.calls[holder];
      }
    }
  }

  lemma HoldersGiveUp(s: State, id: nat)
    requires Inv(s) && Enabled(s, GiveUp(id))
    ensures HoldersOK(Step(s, GiveUp(id)))
  {
    hide Users, CallsOK, TargetsOK;
    var after := Step(s, GiveUp(id));
    forall e | e in after.slots && after.slots[e].full
      ensures exists holder ::
                holder in after.calls && after.calls[holder].entry == e && after.calls[holder].phase.Holding?
    {
      var holder :| holder in s.calls && s.calls[holder].entry == e && s.calls[holder].phase.Holding?;
      assert after.calls[holder] == s.calls[holder];
    }
  }

  lemma HoldersFree(s: State, id: nat)
    requires Inv(s) && Enabled(s, Free(id))
    ensures HoldersOK(Step(s, Free(id)))
  {
    hide Users, CallsOK, TargetsOK;
    var after := Step(s, Free(id));
    forall e | e in after.slots && after.slots[e].full
      ensures exists holder ::
                holder in after.calls && after.calls[holder].entry == e && after.calls[holder].phase.Holding?
    {
      var holder :| holder in s.calls && s.calls[holder].entry == e && s.calls[holder].phase.Holding?;
      assert after.calls[holder] == s.calls[holder];
    }
  }

  lemma HoldersUnref(s: State, id: nat)
    requires Inv(s) && Enabled(s, Unref(id))
    ensures HoldersOK(Step(s, Unref(id)))
  {
    hide Users, CallsOK, TargetsOK;
    var after := Step(s, Unref(id));
    forall e | e in after.slots && after.slots[e].full
      ensures exists holder ::
                holder in after.calls && after.calls[holder].entry == e && after.calls[holder].phase.Holding?
    {
      var holder :| holder in s.calls && s.calls[holder].entry == e && s.calls[holder].phase.Holding?;
      assert after.calls[holder] == s.calls[holder];
    }
  }

  lemma TargetsMove(s: State, op: Op)
    requires Inv(s) && Enabled(s, op) && Moves(op)
    ensures TargetsOK(Step(s, op))
  {
    var phase := if op.Take? then Holding else if op.Free? then Freed else GivenUp;
    forall e: nat ensures Users(InPhase(s, op.id, phase), e) == Users(s.calls, e) {
      SameUsers(s.calls, op.id, phase, e);
    }
    hide Users, HoldersOK, CallsOK;
  }

  lemma TargetsEnter(s: State, id: nat, target: string)
    requires Inv(s) && Enabled(s, Enter(id, target))
    ensures TargetsOK(Step(s, Enter(id, target)))
  {
    NoUsers(s, s.next);
    var entry := Serving(s, target).targets[target];
    forall e: nat ensures |Users(s.calls[id := Call(target, entry, Waiting)], e)| == |Users(s.calls,
        e)| + if entry == e then 1 else 0 {
      UserAdded(s.calls, id, Call(target, entry, Waiting), e);
    }
    TargetsEntered(s, id, target);
  }

  lemma TargetsEntered(s: State, id: nat, target: string)
    requires TargetsOK(s) && id !in s.calls && Users(s.calls, s.next) == {}
    requires var entry := Serving(s, target).targets[target];
             forall e: nat :: |Users(s.calls[id := Call(target, entry, Waiting)], e)| == |Users(s.calls,
                 e)| + if entry == e then 1 else 0
    ensures TargetsOK(Step(s, Enter(id, target)))
  {
    hide Users;
  }

  lemma TargetsUnref(s: State, id: nat)
    requires Inv(s) && Enabled(s, Unref(id))
    ensures TargetsOK(Step(s, Unref(id)))
  {
    forall e: nat ensures |Users(s.calls - {id}, e)| == |Users(s.calls, e)| - if s.calls[id].entry == e then 1 else 0 {
      UserGone(s.calls, id, e);
    }
    TargetsLeft(s, id);
  }

  lemma TargetsLeft(s: State, id: nat)
    requires CallsOK(s) && TargetsOK(s) && Enabled(s, Unref(id))
    requires forall e: nat :: |Users(s.calls - {id}, e)| == |Users(s.calls, e)| - if s.calls[id].entry == e then 1
               else 0
    ensures TargetsOK(Step(s, Unref(id)))
  {
    hide Users;
    var after := Step(s, Unref(id));
    assert s.targets[s.calls[id].target] == s.calls[id].entry;
    forall t | t in after.targets
      ensures after.targets[t] in after.slots && after.slots[after.targets[t]].refs == |Users(after.calls,
                after.targets[t])| > 0
    {
      assert t in s.targets && s.slots[s.targets[t]].refs == |Users(s.calls, s.targets[t])| > 0;
    }
  }

  lemma StepInv(s: State, op: Op)
    requires Inv(s) && Enabled(s, op)
    ensures Inv(Step(s, op))
  {
    hide CallsOK, TargetsOK, HoldersOK, Step;
    CallsStep(s, op);
    HoldersStep(s, op);
    match op
    case Enter(id, target) => TargetsEnter(s, id, target);
    case Unref(id) => TargetsUnref(s, id);
    case _ => TargetsMove(s, op);
  }

  // Over any run

  ghost predicate CanRun(s: State, ops: seq<Op>)
    decreases |ops|
  {
    ops == [] || (Enabled(s, ops[0]) && CanRun(Step(s, ops[0]), ops[1..]))
  }

  ghost function Run(s: State, ops: seq<Op>): State
    requires CanRun(s, ops)
    decreases |ops|
  {
    if ops == [] then s else Run(Step(s, ops[0]), ops[1..])
  }

  lemma {:induction false} RunInv(s: State, ops: seq<Op>)
    requires Inv(s) && CanRun(s, ops)
    ensures Inv(Run(s, ops))
    decreases |ops|
  {
    hide Inv, Step, Enabled;
    if ops != [] {
      StepInv(s, ops[0]);
      RunInv(Step(s, ops[0]), ops[1..]);
    }
  }

  /** However calls enter, wait, give up and leave, and however often a target's entry
      is dropped and made again, no two of them hold one target at a time; a waiting
      call can go on whenever nobody does; and freeing a slot never waits. */
  lemma OneHolder(ops: seq<Op>, a: nat, b: nat)
    requires CanRun(START, ops)
    requires var calls := Run(START, ops).calls; a in calls && b in calls && calls[a].target == calls[b].target
    ensures var s := Run(START, ops);
            && (s.calls[a].phase.Holding? && s.calls[b].phase.Holding? ==> a == b)
            && (s.calls[a].phase.Holding? ==> Enabled(s, Free(a)))
            && (s.calls[a].phase.Waiting? ==>
                  Enabled(s, Take(a)) || exists c ::
                    c in s.calls && s.calls[c].target == s.calls[a].target && s.calls[c].phase.Holding?)
  {
    RunInv(START, ops);
    var s := Run(START, ops);
    hide Run, CanRun, Users;
    if s.calls[a].phase.Waiting? && s.slots[s.calls[a].entry].full {
      var c :| c in s.calls && s.calls[c].entry == s.calls[a].entry && s.calls[c].phase.Holding?;
      assert s.targets[s.calls[c].target] == s.targets[s.calls[a].target];
    }
  }

  /** The table has exactly the targets that some call uses, so it does not grow. */
  lemma NothingLeaks(ops: seq<Op>, target: string)
    requires CanRun(START, ops)
    ensures var s := Run(START, ops);
            target in s.targets <==> exists id :: id in s.calls && s.calls[id].target == target
  {
    RunInv(START, ops);
    var s := Run(START, ops);
    hide Run, CanRun;
    if target in s.targets {
      assert Users(s.calls, s.targets[target]) != {};
      var id :| id in Users(s.calls, s.targets[target]);
      assert s.targets[s.calls[id].target] == s.targets[target];
    }
  }

  // The sender's table

  /** The table of targets, the entries it points to, and the calls in AcquireTarget
      or holding its result. */
  class TargetTable {
    var targets: map<string, nat>
    var slots: map<nat, Slot>
    var calls: map<nat, Call>
    var next: nat

    ghost function Abs(): State
      reads this
    {
      State(targets, slots, calls, next)
    }

    ghost predicate Valid()
      reads this
    {
      Inv(Abs())
    }

    constructor ()
      ensures Valid() && Abs() == START
    {
      targets, slots, calls, next := map[], map[], map[], 0;
    }

    /** The locked region at the top of AcquireTarget. */
    method Enter(id: nat, target: string)
      requires Valid() && id !in calls
      modifies this
      ensures Valid() && Abs() == Step(old(Abs()), Op.Enter(id, target))
      ensures target in targets && calls[id] == Call(target, targets[target], Waiting)
    {
      hide Inv;
      EntersServed(Abs(), id, target);
      StepInv(Abs(), Op.Enter(id, target));
      var served := slots;
      if target !in targets {
        served := slots[next := Slot(false, 0)];
        targets, next := targets[target := next], next + 1;
      }
      var entry := targets[target];
      slots, calls := served[entry := Slot(served[entry].full, served[entry].refs + 1)],
        calls[id := Call(target, entry, Waiting)];
    }

    /** entry.slot <- struct{}{} */
    method Take(id: nat)
      requires Valid() && Enabled(Abs(), Op.Take(id))
      modifies this
      ensures Valid() && Abs() == Step(old(Abs()), Op.Take(id))
    {
      hide Inv;
      StepInv(Abs(), Op.Take(id));
      var Call(target, entry, _) := calls[id];
      slots := slots[entry := Slot(true, slots[entry].refs)];
      calls := calls[id := Call(target, entry, Holding)];
    }

    /** <-ctx.Done() */
    method GiveUp(id: nat)
      requires Valid() && Enabled(Abs(), Op.GiveUp(id))
      modifies this
      ensures Valid() && Abs() == Step(old(Abs()), Op.GiveUp(id))
    {
      hide Inv;
      StepInv(Abs(), Op.GiveUp(id));
      calls := calls[id := Call(calls[id].target, calls[id].entry, GivenUp)];
    }

    /** <-entry.slot, by the holder, which never waits. */
    method Free(id: nat)
      requires Valid() && id in calls && calls[id].phase.Holding?
      modifies this
      ensures Valid() && Enabled(old(Abs()), Op.Free(id)) && Abs() == Step(old(Abs()), Op.Free(id))
    {
      hide Inv;
      HolderIsFull(Abs(), id);
      StepInv(Abs(), Op.Free(id));
      var Call(target, entry, _) := calls[id];
      slots := slots[entry := Slot(false, slots[entry].refs)];
      calls := calls[id := Call(target, entry, Freed)];
    }

    /** unref: the last user takes the target out of the table. */
    method Unref(id: nat)
      requires Valid() && id in calls && (calls[id].phase.Freed? || calls[id].phase.GivenUp?)
      modifies this
      ensures Valid() && Enabled(old(Abs()), Op.Unref(id)) && Abs() == Step(old(Abs()), Op.Unref(id))
    {
      hide Inv;
      HolderIsFull(Abs(), id);
      StepInv(Abs(), Op.Unref(id));
      var Call(target, entry, _) := calls[id];
      var refs := slots[entry].refs - 1;
      targets := if refs == 0 then targets - {target} else targets;
      slots, calls := slots[entry := Slot(slots[entry].full, refs)], calls - {id};
    }
  }

  lemma EntersServed(s: State, id: nat, target: string)
    requires Inv(s)
    ensures var t := Serving(s, target); target in t.targets && t.targets[target] in t.slots
  {
    hide Users;
  }

  lemma HolderIsFull(s: State, id: nat)
    requires Inv(s) && id in s.calls
    ensures s.calls[id].entry in s.slots && (s.calls[id].phase.Holding? ==> s.slots[s.calls[id].entry].full)
  {
    hide Users;
  }

  // Sending the segments

  /** What one attempt comes to. `classified` is a category the error itself names. */
  datatype Reply = Accepted | Unknown | Failed(classified: Option<string>) | Limited(wait: int)

  /** Before an attempt the context may have ended; an attempt has a reply, and the
      context may have ended while it ran. */
  datatype Turn = Cancelled | Attempt(reply: Reply, ended: bool)

  datatype Sent = Sent(segment: string, reply: Reply)

  /** The replies after which the same segment is tried again, or the next one. */
  predicate GoesOn(reply: Reply) {
    reply.Accepted? || (reply.Limited? && reply.wait > 0)
  }

  function AcceptedOf(log: seq<Sent>): seq<string> {
    if log == [] then []
    else AcceptedOf(log[..|log| - 1]) + if log[|log| - 1].reply.Accepted? then [log[|log| - 1].segment] else []
  }

  /** Every attempt was for the segment after those accepted before it. */
  ghost predicate InTurn(log: seq<Sent>, segments: seq<string>) {
    forall i :: 0 <= i < |log| ==>
      var n := |AcceptedOf(log[..i])|; n < |segments| && log[i].segment == segments[n]
  }

  lemma LogPush(log: seq<Sent>, sent: Sent, segments: seq<string>)
    requires InTurn(log, segments) && |AcceptedOf(log)| < |segments| && sent.segment == segments[|AcceptedOf(log)|]
    ensures InTurn(log + [sent], segments)
    ensures AcceptedOf(log + [sent]) == AcceptedOf(log) + if sent.reply.Accepted? then [sent.segment] else []
  {
    var more := log + [sent];
    assert more[..|log|] == log;
    forall i | 0 <= i < |more|
      ensures var n := |AcceptedOf(more[..i])|; n < |segments| && more[i].segment == segments[n]
    {
      if i < |log| {
        assert more[..i] == log[..i];
      }
    }
  }

  lemma NothingSent(segments: seq<string>)
    ensures AcceptedOf([]) == segments[..0] && InTurn([], segments)
  {
  }

  lemma OneMore(segments: seq<string>, n: nat)
    requires n < |segments|
    ensures segments[..n] + [segments[n]] == segments[..n + 1]
  {
  }

  function Category(reply: Reply, ended: bool): string {
    match reply
    case Unknown => "unknown_send"
    case Failed(Some(category)) => category
    case Failed(None) => if ended then "cancelled" else "delivery_failed"
    case Limited(_) => if ended then "cancelled" else "invalid_rate_limit"
    case Accepted => ""
  }

  /** The turns after which the loop goes on. */
  predicate Continues(turn: Turn) {
    turn.Attempt? && GoesOn(turn.reply) && !(turn.reply.Limited? && turn.ended)
  }

  /** Every attempt took the next turn, and all before the last one let the loop go on. */
  ghost predicate TakesTurns(log: seq<Sent>, turns: seq<Turn>) {
    && |log| <= |turns| && (forall i :: 0 <= i < |log| ==> turns[i].Attempt? && turns[i].reply == log[i].reply)
    && forall i :: 0 <= i < |log| - 1 ==> Continues(turns[i])
  }

  /** The loop of Send under the target's slot; the turns end with a cancellation,
      because all waits share one deadline. The accepted segments are exactly the first
      `accepted` ones, once each and in order; nothing follows a failure; a segment is
      tried again only after a rate limit; an unknown outcome is never hidden; and the
      loop ends early only after a reply that says so, or once the context has ended. */
  method SendSegments(segments: seq<string>, turns: seq<Turn>) returns (accepted: nat, failure: Option<string>,
                                                                        log: seq<Sent>)
    ensures accepted <= |segments| && AcceptedOf(log) == segments[..accepted]
    ensures failure.None? <==> accepted == |segments|
    ensures InTurn(log, segments)
    ensures forall i :: 0 <= i < |log| - 1 ==> GoesOn(log[i].reply)
    ensures log != [] && log[|log| - 1].reply.Unknown? ==> failure == Some("unknown_send")
    ensures TakesTurns(log, turns)
    ensures failure.Some? ==>
              if log != [] && !Continues(turns[|log| - 1]) then
                failure.value == Category(turns[|log| - 1].reply, turns[|log| - 1].ended)
              else failure.value == "cancelled" && (|log| == |turns| || turns[|log|].Cancelled?)
  {
    hide AcceptedOf, InTurn;
    accepted, failure, log := 0, None, [];
    var at := 0;
    NothingSent(segments);
    while accepted < |segments|
      invariant accepted <= |segments| && AcceptedOf(log) == segments[..accepted] && at <= |turns| && failure.None?
      invariant InTurn(log, segments)
      invariant at == |log| && TakesTurns(log, turns) && forall i :: 0 <= i < at ==> Continues(turns[i])
      decreases |turns| - at, |segments| - accepted
    {
      if at == |turns| || turns[at].Cancelled? {
        return accepted, Some("cancelled"), log;
      }
      var Attempt(reply, ended) := turns[at];
      at := at + 1;
      OneMore(segments, accepted);
      LogPush(log, Sent(segments[accepted], reply), segments);
      log := log + [Sent(segments[accepted], reply)];
      if reply.Accepted? {
        accepted := accepted + 1;
      } else if reply.Unknown? || reply.Failed? {
        return accepted, Some(Category(reply, ended)), log;
      } else if ended || reply.wait <= 0 {
        return accepted, Some(Category(reply, ended)), log;
      }
    }
  }
}
