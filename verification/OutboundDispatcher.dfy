/** Sharded delivery of outbound tasks (internal/gateway/outbound_dispatcher.go).

    Producers, the consumers of the eight shards and close interleave; every
    channel operation and locked region is one step. */
module OutboundDispatcher {

  const SHARDS: nat := 8
  const QUEUE_SIZE: nat := 256

  /** A producer call is one task; `ticket` counts how often the shard's token had
      been taken when its producer took it. */
  datatype Task = Task(id: nat, ticket: nat)

  datatype Consumer = Serving | Busy(task: Task) | Draining | DrainBusy(task: Task) | Gone

  /** `sent` and `ran` record what went into the queue and what was run, in order. */
  datatype Shard = Shard(free: bool, tickets: nat, queue: seq<Task>, consumer: Consumer, sent: seq<Task>,
                         ran: seq<Task>)

  datatype Result = Closed | Queued | Full

  datatype Producer =
    | Waiting(shard: nat, block: bool)
    | Holding(shard: nat, block: bool, ticket: nat)
    | Releasing(shard: nat, result: Result)
    | Leaving(shard: nat, result: Result)

  datatype Position = Position(shard: nat, index: nat)

  /** `sentAt` says where each task that was sent stands, `reported` what each call
      returned; `returned` is the end of close. */
  datatype State = State(
    closed: bool, cancelled: bool, returned: bool, entered: set<nat>, producers: map<nat, Producer>,
    shards: seq<Shard>, sentAt: map<nat, Position>, reported: map<nat, Result>)

  const START := State(false, false, false, {}, map[], seq(SHARDS, _ => Shard(true, 0, [], Serving, [], [])), map[],
                       map[])

  datatype Op =
    | Enter(id: nat, shard: nat, block: bool)
    | TakeToken(id: nat)
    | GiveUp(id: nat, result: Result)
    | Send(id: nat)
    | Fail(id: nat, result: Result)
    | ReturnToken(id: nat)
    | Leave(id: nat)
    | Close
    | Cancel
    | Receive(shard: nat)
    | Run(shard: nat)
    | SeeCancel(shard: nat)
    | Stop(shard: nat)
    | Return

  /** Does the producer hold its shard's token? */
  predicate Holds(p: Producer) {
    p.Holding? || p.Releasing?
  }

  /** A call may be told Closed when its context ends or the dispatcher closes, and
      Full only without waiting. */
  predicate MayGiveUp(s: State, p: Producer, result: Result)
    requires p.shard < |s.shards|
  {
    match p
    case Waiting(shard, block) => result.Closed? || (result.Full? && !block && !s.shards[shard].free)
    case Holding(shard, block, _) => result.Closed? || (result.Full? && !block && |s.shards[shard].queue| >= QUEUE_SIZE)
    case _ => false
  }

  predicate Enabled(s: State, op: Op) {
    match op
    case Enter(id, shard, _) => id !in s.entered && shard < |s.shards| && !s.closed
    case TakeToken(id) =>
      id in s.producers && s.producers[id].Waiting? && s.producers[id].shard < |s.shards|
        && s.shards[s.producers[id].shard].free
    case GiveUp(id, result) =>
      id in s.producers && s.producers[id].Waiting? && s.producers[id].shard < |s.shards|
        && MayGiveUp(s, s.producers[id], result)
    case Send(id) =>
      id in s.producers && s.producers[id].Holding? && s.producers[id].shard < |s.shards|
      && |s.shards[s.producers[id].shard].queue| < QUEUE_SIZE
    case Fail(id, result) =>
      id in s.producers && s.producers[id].Holding? && s.producers[id].shard < |s.shards|
        && MayGiveUp(s, s.producers[id], result)
    case ReturnToken(id) => id in s.producers && s.producers[id].Releasing? && s.producers[id].shard < |s.shards|
    case Leave(id) => id in s.producers && s.producers[id].Leaving?
    case Close => !s.closed
    case Cancel => s.closed && !s.cancelled && s.producers == map[]
    case Receive(i) => i < |s.shards| && (s.shards[i].consumer.Serving? || s.shards[i].consumer.Draining?)
      && s.shards[i].queue != []
    case Run(i) => i < |s.shards| && (s.shards[i].consumer.Busy? || s.shards[i].consumer.DrainBusy?)
    case SeeCancel(i) => i < |s.shards| && s.shards[i].consumer.Serving? && s.cancelled
    case Stop(i) => i < |s.shards| && s.shards[i].consumer.Draining? && s.shards[i].queue == []
    case Return => s.cancelled && forall i :: 0 <= i < |s.shards| ==> s.shards[i].consumer.Gone?
  }

  function Step(s: State, op: Op): State
    requires Enabled(s, op)
  {
    match op
    case Enter(id, shard, block) => s.(entered := s.entered + {id},
                                       producers := s.producers[id := Waiting(shard, block)])
    case TakeToken(id) =>
      var p := s.producers[id];
      var shard := s.shards[p.shard];
      s.(producers := s.producers[id := Holding(p.shard, p.block, shard.tickets)],
         shards := s.shards[p.shard := shard.(free := false, tickets := shard.tickets + 1)])
    case GiveUp(id, result) => s.(producers := s.producers[id := Leaving(s.producers[id].shard, result)])
    case Send(id) =>
      var p := s.producers[id];
      var shard := s.shards[p.shard];
      var task := Task(id, p.ticket);
      s.(producers := s.producers[id := Releasing(p.shard, Queued)],
         shards := s.shards[p.shard := shard.(queue := shard.queue + [task], sent := shard.sent + [task])],
         sentAt := s.sentAt[id := Position(p.shard, |shard.sent|)])
    case Fail(id, result) => s.(producers := s.producers[id := Releasing(s.producers[id].shard, result)])
    case ReturnToken(id) =>
      var p := s.producers[id];
      s.(producers := s.producers[id := Leaving(p.shard, p.result)],
         shards := s.shards[p.shard := s.shards[p.shard].(free := true)])
    case Leave(id) => s.(producers := s.producers - {id}, reported := s.reported[id := s.producers[id].result])
    case Close => s.(closed := true)
    case Cancel => s.(cancelled := true)
    case Receive(i) =>
      var shard := s.shards[i];
      s.(shards := s.shards[i := shard.(queue := shard.queue[1..],
           consumer := if shard.consumer.Serving? then Busy(shard.queue[0]) else DrainBusy(shard.queue[0]))])
    case Run(i) =>
      var shard := s.shards[i];
      s.(shards := s.shards[i := shard.(ran := shard.ran + [shard.consumer.task],
           consumer := if shard.consumer.Busy? then Serving else Draining)])
    case SeeCancel(i) => s.(shards := s.shards[i := s.shards[i].(consumer := Draining)])
    case Stop(i) => s.(shards := s.shards[i := s.shards[i].(consumer := Gone)])
    case Return => s.(returned := true)
  }

  // The invariant

  function InHand(consumer: Consumer): seq<Task> {
    match consumer
    case Busy(task) => [task]
    case DrainBusy(task) => [task]
    case _ => []
  }

  /** What was sent was run, is being run or waits, in this order; tickets rise. */
  ghost predicate ShardOK(shard: Shard, cancelled: bool) {
    && shard.sent == shard.ran + InHand(shard.consumer) + shard.queue
    && (forall a, b :: 0 <= a < b < |shard.sent| ==> shard.sent[a].ticket < shard.sent[b].ticket)
    && (forall a :: 0 <= a < |shard.sent| ==> shard.sent[a].ticket < shard.tickets)
    && |shard.queue| <= QUEUE_SIZE
    && (shard.consumer.Draining? || shard.consumer.DrainBusy? || shard.consumer.Gone? ==> cancelled)
    && (shard.consumer.Gone? ==> shard.queue == [])
  }

  ghost predicate ShardsOK(shards: seq<Shard>, cancelled: bool) {
    |shards| == SHARDS && forall i :: 0 <= i < |shards| ==> ShardOK(shards[i], cancelled)
  }

  /** The token of a shard is with at most one producer, whose ticket is the latest. */
  ghost predicate TokensOK(producers: map<nat, Producer>, shards: seq<Shard>) {
    && (forall p <- producers :: producers[p].shard < |shards|)
    && (forall p <- producers :: Holds(producers[p]) ==> !shards[producers[p].shard].free)
    && (forall p <- producers, q <- producers ::
          Holds(producers[p]) && Holds(producers[q]) && producers[p].shard == producers[q].shard ==> p == q)
    && (forall p <- producers :: producers[p].Holding? ==>
          var shard := shards[producers[p].shard];
          producers[p].ticket < shard.tickets && forall a :: 0 <= a < |shard.sent| ==>
            shard.sent[a].ticket < producers[p].ticket)
  }

  /** Every task stands in one place. */
  ghost predicate PlacesOK(shards: seq<Shard>, sentAt: map<nat, Position>) {
    && (forall id <- sentAt ::
          sentAt[id].shard < |shards| && sentAt[id].index < |shards[sentAt[id].shard].sent|
          && shards[sentAt[id].shard].sent[sentAt[id].index].id == id)
    && (forall i, a :: 0 <= i < |shards| && 0 <= a < |shards[i].sent| ==>
          shards[i].sent[a].id in sentAt && sentAt[shards[i].sent[a].id] == Position(i, a))
  }

  /** A call has sent its task exactly if it answers Queued. */
  ghost predicate CallsOK(s: State) {
    && s.producers.Keys <= s.entered && s.sentAt.Keys <= s.entered && s.reported.Keys <= s.entered
    && (forall p <- s.producers :: p !in s.reported)
    && (forall p <- s.producers :: (s.producers[p].Waiting? || s.producers[p].Holding?) ==> p !in s.sentAt)
    && (forall p <- s.producers :: (s.producers[p].Releasing? || s.producers[p].Leaving?) ==>
        (s.producers[p].result.Queued? <==> p in s.sentAt))
    && (forall p <- s.reported :: s.reported[p].Queued? <==> p in s.sentAt)
  }

  ghost predicate EndOK(s: State) {
    && (s.cancelled ==> s.closed && s.producers == map[])
    && (s.returned ==> s.cancelled && forall i :: 0 <= i < |s.shards| ==> s.shards[i].consumer.Gone?)
  }

  ghost predicate Inv(s: State) {
    ShardsOK(s.shards, s.cancelled) && TokensOK(s.producers, s.shards) && PlacesOK(s.shards, s.sentAt) && CallsOK(s)
      && EndOK(s)
  }

  // What one step does to one shard

  lemma SendShard(shard: Shard, task: Task, cancelled: bool)
    requires ShardOK(shard, cancelled) && |shard.queue| < QUEUE_SIZE && task.ticket < shard.tickets
    requires forall a :: 0 <= a < |shard.sent| ==> shard.sent[a].ticket < task.ticket
    requires !shard.consumer.Gone?
    ensures ShardOK(shard.(queue := shard.queue + [task], sent := shard.sent + [task]), cancelled)
  {
    assert shard.ran + InHand(shard.consumer) + (shard.queue + [task]) == shard.sent + [task];
  }

  lemma ReceiveShard(shard: Shard, cancelled: bool)
    requires ShardOK(shard, cancelled) && (shard.consumer.Serving? || shard.consumer.Draining?) && shard.queue != []
    ensures var task := shard.queue[0];
            ShardOK(shard.(queue := shard.queue[1..], consumer := if shard.consumer.Serving? then Busy(task)
                           else DrainBusy(task)), cancelled)
  {
    assert shard.queue == [shard.queue[0]] + shard.queue[1..];
    assert shard.ran + [] + shard.queue == shard.ran + [shard.queue[0]] + shard.queue[1..];
  }

  lemma RunShard(shard: Shard, cancelled: bool)
    requires ShardOK(shard, cancelled) && (shard.consumer.Busy? || shard.consumer.DrainBusy?)
    ensures ShardOK(shard.(ran := shard.ran + [shard.consumer.task],
                           consumer := if shard.consumer.Busy? then Serving else Draining), cancelled)
  {
    assert shard.ran + [shard.consumer.task] + [] + shard.queue == shard.ran + [shard.consumer.task] + shard.queue;
  }

  lemma OtherShard(shard: Shard, cancelled: bool)
    requires ShardOK(shard, cancelled)
    ensures ShardOK(shard.(free := true), cancelled)
            && ShardOK(shard.(free := false, tickets := shard.tickets + 1), cancelled)
    ensures shard.consumer.Serving? && cancelled ==> ShardOK(shard.(consumer := Draining), cancelled)
    ensures shard.consumer.Draining? && shard.queue == [] ==> ShardOK(shard.(consumer := Gone), cancelled)
    ensures ShardOK(shard, true)
  {
  }

  lemma ShardsStep(s: State, op: Op)
    requires Inv(s) && Enabled(s, op)
    ensures ShardsOK(Step(s, op).shards, Step(s, op).cancelled)
  {
    hide PlacesOK, CallsOK, TokensOK, ShardOK, InHand;
    var s' := Step(s, op);
    match op
    case TakeToken(id) => OtherShard(s.shards[s.producers[id].shard], s.cancelled);
    case ReturnToken(id) => OtherShard(s.shards[s.producers[id].shard], s.cancelled);
    case Send(id) =>
      var p := s.producers[id];
      HolderIsLatest(s, id);
      SendShard(s.shards[p.shard], Task(id, p.ticket), s.cancelled);
    case Receive(i) => ReceiveShard(s.shards[i], s.cancelled);
    case Run(i) => RunShard(s.shards[i], s.cancelled);
    case SeeCancel(i) => OtherShard(s.shards[i], s.cancelled);
    case Stop(i) => OtherShard(s.shards[i], s.cancelled);
    case Cancel =>
      forall i | 0 <= i < |s.shards|
        ensures ShardOK(s.shards[i], true)
      {
        OtherShard(s.shards[i], s.cancelled);
      }
    case _ =>
  }

  /** The holder of a token has a later ticket than everything sent, and its shard
      is still served. */
  lemma HolderIsLatest(s: State, id: nat)
    requires Inv(s) && id in s.producers && s.producers[id].Holding?
    ensures var p := s.producers[id];
            && p.shard < |s.shards|
            && p.ticket < s.shards[p.shard].tickets && !s.shards[p.shard].consumer.Gone?
            && forall a :: 0 <= a < |s.shards[p.shard].sent| ==> s.shards[p.shard].sent[a].ticket < p.ticket
  {
    hide PlacesOK, CallsOK;
    var p := s.producers[id];
    assert ShardOK(s.shards[p.shard], s.cancelled);
  }

  lemma TakeTokens(s: State, id: nat)
    requires Inv(s) && Enabled(s, TakeToken(id))
    ensures TokensOK(Step(s, TakeToken(id)).producers, Step(s, TakeToken(id)).shards)
  {
    hide PlacesOK, CallsOK, EndOK;
    assert ShardOK(s.shards[s.producers[id].shard], s.cancelled);
    hide ShardsOK;
  }

  lemma SendTokens(s: State, id: nat)
    requires Inv(s) && Enabled(s, Send(id))
    ensures TokensOK(Step(s, Send(id)).producers, Step(s, Send(id)).shards)
  {
    hide PlacesOK, CallsOK, EndOK, ShardsOK;
  }

  lemma ReturnTokens(s: State, id: nat)
    requires Inv(s) && Enabled(s, ReturnToken(id))
    ensures TokensOK(Step(s, ReturnToken(id)).producers, Step(s, ReturnToken(id)).shards)
  {
    hide PlacesOK, CallsOK, EndOK, ShardsOK;
  }

  /** Steps of consumers do not touch tokens, tickets or what was sent. */
  predicate SameTokens(before: seq<Shard>, after: seq<Shard>) {
    |after| == |before| && forall i :: 0 <= i < |before| ==>
      after[i].free == before[i].free && after[i].tickets == before[i].tickets && after[i].sent == before[i].sent
  }

  lemma ConsumerTokens(producers: map<nat, Producer>, before: seq<Shard>, after: seq<Shard>)
    requires SameTokens(before, after) && TokensOK(producers, before)
    ensures TokensOK(producers, after)
  {
  }

  /** A producer that neither takes nor returns a token. */
  lemma ProducerTokens(producers: map<nat, Producer>, shards: seq<Shard>, id: nat, p: Producer)
    requires TokensOK(producers, shards) && p.shard < |shards| && !p.Holding?
    requires Holds(p) ==> id in producers && Holds(producers[id]) && producers[id].shard == p.shard
    ensures TokensOK(producers[id := p], shards)
  {
  }

  lemma TokensStep(s: State, op: Op)
    requires Inv(s) && Enabled(s, op)
    ensures TokensOK(Step(s, op).producers, Step(s, op).shards)
  {
    hide PlacesOK, CallsOK, TokensOK, ShardsOK, EndOK;
    match op
    case Enter(id, shard, block) => ProducerTokens(s.producers, s.shards, id, Waiting(shard, block));
    case TakeToken(id) => TakeTokens(s, id);
    case GiveUp(id, result) => ProducerTokens(s.producers, s.shards, id, Leaving(s.producers[id].shard, result));
    case Send(id) => SendTokens(s, id);
    case Fail(id, result) => ProducerTokens(s.producers, s.shards, id, Releasing(s.producers[id].shard, result));
    case ReturnToken(id) => ReturnTokens(s, id);
    case Leave(id) => LeaveTokens(s.producers, s.shards, id);
    case Receive(_) => ConsumerTokens(s.producers, s.shards, Step(s, op).shards);
    case Run(_) => ConsumerTokens(s.producers, s.shards, Step(s, op).shards);
    case SeeCancel(_) => ConsumerTokens(s.producers, s.shards, Step(s, op).shards);
    case Stop(_) => ConsumerTokens(s.producers, s.shards, Step(s, op).shards);
    case _ =>
  }

  lemma LeaveTokens(producers: map<nat, Producer>, shards: seq<Shard>, id: nat)
    requires TokensOK(producers, shards)
    ensures TokensOK(producers - {id}, shards)
  {
  }

  lemma SendPlaces(shards: seq<Shard>, sentAt: map<nat, Position>, i: nat, task: Task, queue: seq<Task>)
    requires PlacesOK(shards, sentAt) && i < |shards| && task.id !in sentAt
    ensures PlacesOK(shards[i := shards[i].(queue := queue, sent := shards[i].sent + [task])],
                     sentAt[task.id := Position(i, |shards[i].sent|)])
  {
  }

  lemma PlacesStep(s: State, op: Op)
    requires Inv(s) && Enabled(s, op)
    ensures PlacesOK(Step(s, op).shards, Step(s, op).sentAt)
  {
    hide ShardsOK, TokensOK, PlacesOK;
    if op.Send? {
      var p := s.producers[op.id];
      SendPlaces(s.shards, s.sentAt, p.shard, Task(op.id, p.ticket), s.shards[p.shard].queue + [Task(op.id, p.ticket)]);
    } else {
      SentSame(s.shards, Step(s, op).shards, s.sentAt);
    }
  }

  lemma SentSame(before: seq<Shard>, after: seq<Shard>, sentAt: map<nat, Position>)
    requires |after| == |before| && forall i :: 0 <= i < |before| ==> after[i].sent == before[i].sent
    requires PlacesOK(before, sentAt)
    ensures PlacesOK(after, sentAt)
  {
  }

  lemma CallsStep(s: State, op: Op)
    requires Inv(s) && Enabled(s, op)
    ensures CallsOK(Step(s, op))
  {
    hide ShardsOK, TokensOK, PlacesOK;
  }

  lemma EndStep(s: State, op: Op)
    requires Inv(s) && Enabled(s, op)
    ensures EndOK(Step(s, op))
  {
    hide TokensOK, PlacesOK, CallsOK;
  }

  lemma StepInv(s: State, op: Op)
    requires Inv(s) && Enabled(s, op)
    ensures Inv(Step(s, op))
  {
    hide Step, ShardsOK, TokensOK, PlacesOK, CallsOK, EndOK;
    ShardsStep(s, op);
    TokensStep(s, op);
    PlacesStep(s, op);
    CallsStep(s, op);
    EndStep(s, op);
  }

  // Runs

  ghost predicate CanRun(s: State, ops: seq<Op>)
    decreases |ops|
  {
    ops == [] || (Enabled(s, ops[0]) && CanRun(Step(s, ops[0]), ops[1..]))
  }

  ghost function RunAll(s: State, ops: seq<Op>): State
    requires CanRun(s, ops)
    decreases |ops|
  {
    if ops == [] then s else RunAll(Step(s, ops[0]), ops[1..])
  }

  lemma StartInv()
    ensures Inv(START)
  {
  }

  lemma {:induction false} RunInv(s: State, ops: seq<Op>)
    requires Inv(s) && CanRun(s, ops)
    ensures Inv(RunAll(s, ops))
    decreases |ops|
  {
    hide Inv, Step, Enabled;
    if ops != [] {
      StepInv(s, ops[0]);
      RunInv(Step(s, ops[0]), ops[1..]);
    }
  }

  /** The tasks of a shard run in the order in which their producers took its token,
      so a producer that waits for room is never overtaken. */
  lemma TokenOrder(ops: seq<Op>, i: nat, a: nat, b: nat)
    requires CanRun(START, ops) && i < |RunAll(START, ops).shards|
    requires a < b < |RunAll(START, ops).shards[i].ran|
    ensures RunAll(START, ops).shards[i].ran[a].ticket < RunAll(START, ops).shards[i].ran[b].ticket
  {
    hide RunAll, CanRun, Step, Enabled;
    StartInv();
    RunInv(START, ops);
    hide TokensOK, PlacesOK, CallsOK, EndOK;
    var shard := RunAll(START, ops).shards[i];
    assert ShardOK(shard, RunAll(START, ops).cancelled);
    assert shard.sent[a] == shard.ran[a] && shard.sent[b] == shard.ran[b];
  }

  ghost predicate RanAt(s: State, id: nat, i: nat, a: nat) {
    i < |s.shards| && a < |s.shards[i].ran| && s.shards[i].ran[a].id == id
  }

  lemma RanIsSent(s: State, id: nat, i: nat, a: nat)
    requires Inv(s) && RanAt(s, id, i, a)
    ensures id in s.sentAt && s.sentAt[id] == Position(i, a)
    ensures id in s.reported ==> s.reported[id].Queued?
  {
    hide TokensOK, EndOK;
    assert ShardOK(s.shards[i], s.cancelled);
    assert s.shards[i].sent[a] == s.shards[i].ran[a];
  }

  lemma QueuedIsRun(s: State, id: nat)
    requires Inv(s) && s.returned && id in s.reported && s.reported[id].Queued?
    ensures exists i: nat, a: nat :: RanAt(s, id, i, a)
  {
    hide TokensOK;
    var at := s.sentAt[id];
    assert ShardOK(s.shards[at.shard], s.cancelled);
    assert s.shards[at.shard].sent == s.shards[at.shard].ran;
    assert RanAt(s, id, at.shard, at.index);
  }

  /** Once close has returned, a task that was reported as queued has been run, and
      one that was refused has not. No task runs twice at any time. */
  lemma QueuedRunOnce(ops: seq<Op>, id: nat)
    requires CanRun(START, ops)
    ensures var s := RunAll(START, ops);
            && (forall i: nat, a: nat, j: nat, b: nat :: RanAt(s, id, i, a) && RanAt(s, id, j, b) ==> i == j && a == b)
            && (id in s.reported && !s.reported[id].Queued? ==> forall i: nat, a: nat :: !RanAt(s, id, i, a))
            && (s.returned && id in s.reported && s.reported[id].Queued? ==>
                exists i: nat, a: nat :: RanAt(s, id, i, a))
  {
    hide RunAll, CanRun, Inv, RanAt;
    StartInv();
    RunInv(START, ops);
    var s := RunAll(START, ops);
    forall i: nat, a: nat | RanAt(s, id, i, a)
      ensures id in s.sentAt && s.sentAt[id] == Position(i, a) && (id in s.reported ==> s.reported[id].Queued?)
    {
      RanIsSent(s, id, i, a);
    }
    if s.returned && id in s.reported && s.reported[id].Queued? {
      QueuedIsRun(s, id);
    }
  }

  /** Closing waits for no more than it must: once the last call has left, and every
      queue is drained, close can return, and afterwards nothing enters or runs. */
  lemma NothingAfterReturn(ops: seq<Op>, op: Op)
    requires CanRun(START, ops) && RunAll(START, ops).returned && Enabled(RunAll(START, ops), op)
    ensures Step(RunAll(START, ops), op) == RunAll(START, ops)
  {
    hide RunAll, CanRun;
    StartInv();
    RunInv(START, ops);
    hide ShardsOK, TokensOK, PlacesOK, CallsOK;
  }

  // The dispatcher

  lemma TokenIsOut(s: State, id: nat)
    requires Inv(s) && id in s.producers && s.producers[id].Releasing?
    ensures s.producers[id].shard < |s.shards| && !s.shards[s.producers[id].shard].free
  {
    hide ShardsOK, PlacesOK, CallsOK, EndOK;
  }

  /** The fields of outboundDispatcher, with its channels as values. Every method is
      one locked region or one channel operation; a task is the number of its call. */
  class Dispatcher {
    var closed: bool
    var cancelled: bool
    /** sendMu: is the shard's token in its channel? */
    var tokens: seq<bool>
    var queues: seq<seq<Task>>
    var consumers: seq<Consumer>
    /** Calls that producers.Wait waits for. */
    var producers: map<nat, Producer>
    var tickets: seq<nat>
    ghost var returned: bool
    ghost var entered: set<nat>
    ghost var sent: seq<seq<Task>>
    ghost var ran: seq<seq<Task>>
    ghost var sentAt: map<nat, Position>
    ghost var reported: map<nat, Result>

    predicate Sized()
      reads this
    {
      |tokens| == |queues| == |consumers| == |tickets| == SHARDS
    }

    ghost function Abs(): State
      requires Sized() && |sent| == |ran| == SHARDS
      reads this
    {
      State(closed, cancelled, returned, entered, producers,
            seq(SHARDS, i requires 0 <= i < SHARDS reads this requires Sized() && |sent| == |ran| == SHARDS =>
              Shard(tokens[i], tickets[i], queues[i], consumers[i], sent[i], ran[i])),
            sentAt, reported)
    }

    ghost predicate Valid()
      reads this
    {
      Sized() && |sent| == |ran| == SHARDS && Inv(Abs())
    }

    constructor ()
      ensures Valid() && Abs() == START
    {
      closed, cancelled, producers := false, false, map[];
      tokens, queues := seq(SHARDS, _ => true), seq(SHARDS, _ => []);
      consumers, tickets := seq(SHARDS, _ => Serving), seq(SHARDS, _ => 0);
      returned, entered, sentAt, reported := false, {}, map[], map[];
      sent, ran := seq(SHARDS, _ => []), seq(SHARDS, _ => []);
      new;
      assert Abs().shards == START.shards;
      StartInv();
    }

    /** The locked region of enqueueTaskContext. */
    method Enter(id: nat, shard: nat, block: bool) returns (admitted: bool)
      requires Valid() && id !in entered && shard < SHARDS
      modifies this
      ensures Valid() && admitted == !old(closed)
      ensures Abs() == if admitted then Step(old(Abs()), Op.Enter(id, shard, block)) else old(Abs())
    {
      if closed {
        return false;
      }
      StepInv(Abs(), Op.Enter(id, shard, block));
      producers := producers[id := Waiting(shard, block)];
      entered := entered + {id};
      assert Abs().shards == old(Abs()).shards;
      admitted := true;
    }

    /** <-d.sendMu[shard] */
    method TakeToken(id: nat)
      requires Valid() && Enabled(Abs(), Op.TakeToken(id))
      modifies this
      ensures Valid() && Abs() == Step(old(Abs()), Op.TakeToken(id))
    {
      hide Inv;
      StepInv(Abs(), Op.TakeToken(id));
      var Waiting(shard, block) := producers[id];
      producers := producers[id := Holding(shard, block, tickets[shard])];
      tokens, tickets := tokens[shard := false], tickets[shard := tickets[shard] + 1];
      assert Abs().shards == Step(old(Abs()), Op.TakeToken(id)).shards;
    }

    /** The other branches of the first select. */
    method GiveUp(id: nat, result: Result)
      requires Valid() && Enabled(Abs(), Op.GiveUp(id, result))
      modifies this
      ensures Valid() && Abs() == Step(old(Abs()), Op.GiveUp(id, result))
    {
      hide Inv;
      StepInv(Abs(), Op.GiveUp(id, result));
      producers := producers[id := Leaving(producers[id].shard, result)];
      assert Abs().shards == old(Abs()).shards;
    }

    /** queue <- task */
    method Send(id: nat)
      requires Valid() && Enabled(Abs(), Op.Send(id))
      modifies this
      ensures Valid() && Abs() == Step(old(Abs()), Op.Send(id))
    {
      hide Inv;
      StepInv(Abs(), Op.Send(id));
      var Holding(shard, _, ticket) := producers[id];
      producers := producers[id := Releasing(shard, Queued)];
      queues := queues[shard := queues[shard] + [Task(id, ticket)]];
      sentAt := sentAt[id := Position(shard, |sent[shard]|)];
      sent := sent[shard := sent[shard] + [Task(id, ticket)]];
      assert Abs().shards == Step(old(Abs()), Op.Send(id)).shards;
    }

    /** The other branches of the second select. */
    method Fail(id: nat, result: Result)
      requires Valid() && Enabled(Abs(), Op.Fail(id, result))
      modifies this
      ensures Valid() && Abs() == Step(old(Abs()), Op.Fail(id, result))
    {
      hide Inv;
      StepInv(Abs(), Op.Fail(id, result));
      producers := producers[id := Releasing(producers[id].shard, result)];
      assert Abs().shards == old(Abs()).shards;
    }

    /** d.sendMu[shard] <- struct{}{}: the token's channel always has room for it. */
    method ReturnToken(id: nat)
      requires Valid() && id in producers && producers[id].Releasing?
      modifies this
      ensures Valid() && Enabled(old(Abs()), Op.ReturnToken(id)) && Abs() == Step(old(Abs()), Op.ReturnToken(id))
      ensures !old(tokens)[old(producers)[id].shard]
    {
      hide Inv;
      TokenIsOut(Abs(), id);
      var Releasing(shard, result) := producers[id];
      StepInv(Abs(), Op.ReturnToken(id));
      producers := producers[id := Leaving(shard, result)];
      tokens := tokens[shard := true];
      assert Abs().shards == Step(old(Abs()), Op.ReturnToken(id)).shards;
    }

    /** d.producers.Done(), and the call returns. */
    method Leave(id: nat) returns (result: Result)
      requires Valid() && Enabled(Abs(), Op.Leave(id))
      modifies this
      ensures Valid() && Abs() == Step(old(Abs()), Op.Leave(id)) && result == old(producers)[id].result
    {
      hide Inv;
      StepInv(Abs(), Op.Leave(id));
      result := producers[id].result;
      producers := producers - {id};
      reported := reported[id := result];
      assert Abs().shards == old(Abs()).shards;
    }

    /** The locked region of close; only the first call goes on. */
    method Close() returns (first: bool)
      requires Valid()
      modifies this
      ensures Valid() && first == !old(closed)
      ensures Abs() == if first then Step(old(Abs()), Op.Close) else old(Abs())
    {
      hide Inv;
      if closed {
        return false;
      }
      StepInv(Abs(), Op.Close);
      closed, first := true, true;
      assert Abs().shards == old(Abs()).shards;
    }

    /** d.cancel(), once producers.Wait has returned. */
    method Cancel()
      requires Valid() && Enabled(Abs(), Op.Cancel)
      modifies this
      ensures Valid() && Abs() == Step(old(Abs()), Op.Cancel)
    {
      hide Inv;
      StepInv(Abs(), Op.Cancel);
      cancelled := true;
      assert Abs().shards == old(Abs()).shards;
    }

    /** task := <-queue, while serving or draining. */
    method Receive(shard: nat) returns (task: Task)
      requires Valid() && Enabled(Abs(), Op.Receive(shard))
      modifies this
      ensures Valid() && Abs() == Step(old(Abs()), Op.Receive(shard)) && task == old(queues)[shard][0]
    {
      hide Inv;
      StepInv(Abs(), Op.Receive(shard));
      task := queues[shard][0];
      queues := queues[shard := queues[shard][1..]];
      consumers := consumers[shard := if consumers[shard].Serving? then Busy(task) else DrainBusy(task)];
      assert Abs().shards == Step(old(Abs()), Op.Receive(shard)).shards;
    }

    /** task() */
    method Run(shard: nat)
      requires Valid() && Enabled(Abs(), Op.Run(shard))
      modifies this
      ensures Valid() && Abs() == Step(old(Abs()), Op.Run(shard))
    {
      hide Inv;
      StepInv(Abs(), Op.Run(shard));
      ran := ran[shard := ran[shard] + [consumers[shard].task]];
      consumers := consumers[shard := if consumers[shard].Busy? then Serving else Draining];
      assert Abs().shards == Step(old(Abs()), Op.Run(shard)).shards;
    }

    /** <-ctx.Done() in consume. */
    method SeeCancel(shard: nat)
      requires Valid() && Enabled(Abs(), Op.SeeCancel(shard))
      modifies this
      ensures Valid() && Abs() == Step(old(Abs()), Op.SeeCancel(shard))
    {
      hide Inv;
      StepInv(Abs(), Op.SeeCancel(shard));
      consumers := consumers[shard := Draining];
      assert Abs().shards == Step(old(Abs()), Op.SeeCancel(shard)).shards;
    }

    /** The consumer finds its queue empty and returns. */
    method Stop(shard: nat)
      requires Valid() && Enabled(Abs(), Op.Stop(shard))
      modifies this
      ensures Valid() && Abs() == Step(old(Abs()), Op.Stop(shard))
    {
      hide Inv;
      StepInv(Abs(), Op.Stop(shard));
      consumers := consumers[shard := Gone];
      assert Abs().shards == Step(old(Abs()), Op.Stop(shard)).shards;
    }

    /** d.wg.Wait() returns: nothing is left in any queue or in any hand. */
    method Return()
      requires Valid() && Enabled(Abs(), Op.Return)
      modifies this
      ensures Valid() && Abs() == Step(old(Abs()), Op.Return) && producers == map[]
      ensures forall i :: 0 <= i < SHARDS ==> queues[i] == [] && ran[i] == sent[i]
    {
      StepInv(Abs(), Op.Return);
      assert ShardsOK(Abs().shards, cancelled);
      forall i | 0 <= i < SHARDS
        ensures queues[i] == [] && ran[i] == sent[i]
      {
        assert ShardOK(Abs().shards[i], cancelled);
      }
      returned := true;
      assert Abs().shards == old(Abs()).shards;
    }
  }
}
