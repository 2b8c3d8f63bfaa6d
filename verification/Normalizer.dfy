/** The worker pool between socket readers and admission
    (internal/gateway/im_ingress_normalize.go).

    Each locked region, channel operation and call is one atomic step; the steps
    of submitters, workers and the shutdown goroutine interleave freely. */
module Normalizer {
  import opened MapSum

  const WORKERS: nat := 8
  const CAPACITY: nat := 128

  /** Accepted items are numbered in submission order; a number is a ticket. */
  type Queues = map<string, seq<nat>>

  /** Where a worker is in its loop. */
  datatype Stage =
    | Idle
    | Woken(key: string)
    | Working(key: string, ticket: nat)
    | Answering(key: string, ticket: nat)
    | Returning(key: string)
    | Exited

  datatype Event = Started(ticket: nat) | Answered(ticket: nat)

  /** `keys` lists the accepted items' keys by ticket, `sending` the submitters
      that have queued a new key and not yet sent it, `left` what the shutdown
      goroutine took away and still has to answer. */
  datatype State = State(
    queues: Queues, ready: seq<string>, count: nat, cancelled: bool, closed: bool,
    workers: seq<Stage>, sending: multiset<string>, drained: bool, left: Queues,
    keys: seq<string>, log: seq<Event>)

  datatype Verdict = Taken(ticket: nat) | ErrClosed | ErrCancelled | ErrInvalid | ErrCapacity

  datatype Op =
    | Submit(key: string, callable: bool, expired: bool)
    | Send(key: string)
    | Take(worker: nat)
    | Peek(worker: nat)
    | Answer(worker: nat)
    | Advance(worker: nat)
    | Requeue(worker: nat)
    | Exit(worker: nat)
    | Cancel
    | Close
    | Drain
    | Flush(key: string)

  const START := State(map[], [], 0, false, false, seq(WORKERS, _ => Idle), multiset{}, false, map[], [], [])

  /** Why submit refuses, in the order of its checks. */
  function Refusal(s: State, key: string, callable: bool, expired: bool): Verdict {
    if s.closed || s.cancelled then ErrClosed
    else if expired then ErrCancelled
    else if key == "" || !callable then ErrInvalid
    else if s.count >= CAPACITY then ErrCapacity
    else Taken(|s.keys|)
  }

  function QueueOf(queues: Queues, key: string): seq<nat> {
    if key in queues then queues[key] else []
  }

  /** When a step can happen. A send waits for room, a receive for a token, and
      the shutdown goroutine for all workers. */
  predicate Enabled(s: State, op: Op) {
    match op
    case Submit(_, _, _) => true
    case Send(key) => key in s.sending && |s.ready| < CAPACITY
    case Take(w) => w < |s.workers| && s.workers[w].Idle? && s.ready != []
    case Peek(w) => w < |s.workers| && s.workers[w].Woken?
    case Answer(w) => w < |s.workers| && s.workers[w].Working?
    case Advance(w) => w < |s.workers| && s.workers[w].Answering?
    case Requeue(w) => w < |s.workers| && s.workers[w].Returning? && |s.ready| < CAPACITY
    case Exit(w) => w < |s.workers| && s.workers[w].Idle? && s.cancelled
    case Cancel => true
    case Close => s.cancelled && !s.closed
    case Drain => s.closed && !s.drained && forall w :: 0 <= w < |s.workers| ==> s.workers[w].Exited?
    case Flush(key) => key in s.left
  }

  /** Without the front item; an exhausted key is deleted. */
  function Popped(queues: Queues, key: string): Queues
    requires key in queues && queues[key] != []
  {
    if |queues[key]| == 1 then queues - {key} else queues[key := queues[key][1..]]
  }

  function Step(s: State, op: Op): State
    requires Enabled(s, op)
  {
    match op
    case Submit(key, callable, expired) =>
      if !Refusal(s, key, callable, expired).Taken? then s
      else
        s.(queues := s.queues[key := QueueOf(s.queues, key) + [|s.keys|]],
           count := s.count + 1,
           sending := if key in s.queues then s.sending else s.sending + multiset{key},
           keys := s.keys + [key])
    case Send(key) => s.(sending := s.sending - multiset{key}, ready := s.ready + [key])
    case Take(w) => s.(workers := s.workers[w := Woken(s.ready[0])], ready := s.ready[1..])
    case Peek(w) =>
      var key := s.workers[w].key;
      var queue := QueueOf(s.queues, key);
      if queue == [] then s.(workers := s.workers[w := Idle])
      else s.(workers := s.workers[w := Working(key, queue[0])], log := s.log + [Started(queue[0])])
    case Answer(w) =>
      var stage := s.workers[w];
      s.(workers := s.workers[w := Answering(stage.key, stage.ticket)], log := s.log + [Answered(stage.ticket)])
    case Advance(w) =>
      var key := s.workers[w].key;
      if QueueOf(s.queues, key) == [] then s  // the index expression of the source would fault
      else
        var queues := Popped(s.queues, key);
        s.(queues := queues, count := if s.count == 0 then 0 else s.count - 1,
           workers := s.workers[w := if key in queues then Returning(key) else Idle])
    case Requeue(w) => s.(ready := s.ready + [s.workers[w].key], workers := s.workers[w := Idle])
    case Exit(w) => s.(workers := s.workers[w := Exited])
    case Cancel => s.(cancelled := true)
    case Close => s.(closed := true)
    case Drain => s.(drained := true, left := s.queues, queues := map[], count := 0)
    case Flush(key) =>
      if s.left[key] == [] then s.(left := s.left - {key})
      else s.(left := Popped(s.left, key), log := s.log + [Answered(s.left[key][0])])
  }

  // Tokens

  /** The key whose token a worker holds. */
  function Held(stage: Stage): multiset<string> {
    if stage.Idle? || stage.Exited? then multiset{} else multiset{stage.key}
  }

  function AllHeld(workers: seq<Stage>): multiset<string> {
    if workers == [] then multiset{} else Held(workers[0]) + AllHeld(workers[1..])
  }

  lemma {:induction false} HeldUpdate(workers: seq<Stage>, w: nat, stage: Stage)
    requires w < |workers|
    ensures AllHeld(workers[w := stage]) + Held(workers[w]) == AllHeld(workers) + Held(stage)
  {
    var after := workers[w := stage];
    if w == 0 {
      assert after[1..] == workers[1..];
      assert AllHeld(after) == Held(stage) + AllHeld(workers[1..]);
    } else {
      HeldUpdate(workers[1..], w - 1, stage);
      assert after[1..] == workers[1..][w - 1 := stage];
      assert AllHeld(after) == Held(workers[0]) + AllHeld(after[1..]);
      assert workers[1..][w - 1] == workers[w];
      Exchange(Held(workers[0]), AllHeld(after[1..]), Held(workers[w]), AllHeld(workers[1..]), Held(stage));
    }
  }

  lemma Exchange(m: multiset<string>, a: multiset<string>, b: multiset<string>, c: multiset<string>,
                 d: multiset<string>)
    requires a + b == c + d
    ensures (m + a) + b == (m + c) + d
  {
    assert (m + a) + b == m + (a + b);
    assert (m + c) + d == m + (c + d);
  }

  lemma {:induction false} HeldBy(workers: seq<Stage>, w: nat)
    requires w < |workers|
    ensures Held(workers[w]) <= AllHeld(workers)
  {
    if w > 0 {
      HeldBy(workers[1..], w - 1);
    }
  }

  lemma {:induction false} HeldTwice(workers: seq<Stage>, v: nat, w: nat)
    requires v < w < |workers|
    ensures Held(workers[v]) + Held(workers[w]) <= AllHeld(workers)
  {
    hide Held;
    if v == 0 {
      HeldBy(workers[1..], w - 1);
    } else {
      HeldTwice(workers[1..], v - 1, w - 1);
    }
  }

  lemma {:induction false} NoneHeld(workers: seq<Stage>)
    requires forall w :: 0 <= w < |workers| ==> workers[w].Idle? || workers[w].Exited?
    ensures AllHeld(workers) == multiset{}
  {
    if workers != [] {
      NoneHeld(workers[1..]);
    }
  }

  /** Exactly one token for every key: buffered, about to be sent, or with a worker. */
  ghost predicate Balanced(ready: seq<string>, sending: multiset<string>, held: multiset<string>, keys: set<string>) {
    multiset(ready) + sending + held == multiset(keys)
  }

  lemma BalancedCount(ready: seq<string>, sending: multiset<string>, held: multiset<string>, keys: set<string>)
    requires Balanced(ready, sending, held, keys)
    ensures |ready| + |sending| + |held| == |keys|
    ensures forall key :: key in held ==> key in keys && held[key] == 1
  {
    assert |multiset(ready) + sending + held| == |keys|;
    forall key | key in held
      ensures key in keys && held[key] == 1
    {
      assert (multiset(ready) + sending + held)[key] == multiset(keys)[key];
    }
  }

  lemma BalancedSend(ready: seq<string>, sending: multiset<string>, held: multiset<string>, keys: set<string>,
                     key: string)
    requires Balanced(ready, sending, held, keys) && key in sending
    ensures Balanced(ready + [key], sending - multiset{key}, held, keys)
  {
    assert sending - multiset{key} + multiset{key} == sending;
  }

  lemma BalancedTake(ready: seq<string>, sending: multiset<string>, held: multiset<string>, keys: set<string>)
    requires Balanced(ready, sending, held, keys) && ready != []
    ensures Balanced(ready[1..], sending, held + multiset{ready[0]}, keys)
  {
    assert ready == [ready[0]] + ready[1..];
    assert multiset(ready) == multiset{ready[0]} + multiset(ready[1..]);
  }

  lemma BalancedReturn(ready: seq<string>, sending: multiset<string>, held: multiset<string>, keys: set<string>,
                       key: string)
    requires Balanced(ready, sending, held + multiset{key}, keys)
    ensures Balanced(ready + [key], sending, held, keys)
  {
  }

  lemma BalancedNew(ready: seq<string>, sending: multiset<string>, held: multiset<string>, keys: set<string>,
                    key: string)
    requires Balanced(ready, sending, held, keys) && key !in keys
    ensures Balanced(ready, sending + multiset{key}, held, keys + {key})
  {
    KeyDropped(keys + {key}, key);
    assert keys + {key} - {key} == keys;
  }

  lemma BalancedGone(ready: seq<string>, sending: multiset<string>, held: multiset<string>, keys: set<string>,
                     key: string)
    requires Balanced(ready, sending, held + multiset{key}, keys)
    ensures Balanced(ready, sending, held, keys - {key})
  {
    BalancedCount(ready, sending, held + multiset{key}, keys);
    KeyDropped(keys, key);
    assert multiset(ready) + sending + held + multiset{key} == multiset(keys - {key}) + multiset{key};
    Cancelled(multiset(ready) + sending + held, multiset(keys - {key}), key);
  }

  lemma Cancelled(a: multiset<string>, b: multiset<string>, key: string)
    requires a + multiset{key} == b + multiset{key}
    ensures a == b
  {
    assert a + multiset{key} - multiset{key} == a;
    assert b + multiset{key} - multiset{key} == b;
  }

  lemma KeyDropped(keys: set<string>, key: string)
    requires key in keys
    ensures multiset(keys - {key}) + multiset{key} == multiset(keys)
  {
    assert keys - {key} + {key} == keys;
    assert forall k :: (multiset(keys - {key}) + multiset{key})[k] == multiset(keys)[k];
  }

  // The number of queued items

  function Length(queue: seq<nat>): int {
    |queue|
  }

  ghost function Total(queues: Queues): nat {
    NotNegative(queues, Length);
    Sum(queues, Length)
  }

  lemma TotalSet(queues: Queues, key: string, queue: seq<nat>)
    ensures Total(queues[key := queue]) + |QueueOf(queues, key)| == Total(queues) + |queue|
  {
    hide Sum;
    if key in queues {
      Replaced(queues, key, queue, Length);
    } else {
      Inserted(queues, key, queue, Length);
    }
  }

  /** Every key owns at least one item, so there are no more keys than items. */
  lemma {:induction false} KeysBounded(queues: Queues)
    requires forall key <- queues :: queues[key] != []
    ensures |queues.Keys| <= Total(queues)
    decreases |queues|
  {
    if queues != map[] {
      var key := AnyKey(queues);
      OneLess(queues, key);
      KeysBounded(queues - {key});
    }
  }

  lemma PoppedTotal(queues: Queues, key: string)
    requires key in queues && queues[key] != []
    ensures Total(Popped(queues, key)) == Total(queues) - 1
  {
    hide Sum;
    Removed(queues, key, Length);
    if |queues[key]| > 1 {
      Replaced(queues, key, queues[key][1..], Length);
    }
  }

  // The invariant

  ghost predicate Sorted(queue: seq<nat>) {
    forall i, j :: 0 <= i < j < |queue| ==> queue[i] < queue[j]
  }

  /** A queue holds tickets of its own key in submission order and is never empty. */
  ghost predicate QueueOK(queue: seq<nat>, key: string, keys: seq<string>) {
    queue != [] && Sorted(queue) && forall i :: 0 <= i < |queue| ==> queue[i] < |keys| && keys[queue[i]] == key
  }

  ghost predicate QueuesOK(queues: Queues, keys: seq<string>) {
    forall key <- queues :: QueueOK(queues[key], key, keys)
  }

  /** Exactly one token for each key with queued work; the counter counts the work. */
  ghost predicate TokensOK(s: State) {
    && |s.ready| + |s.sending| + |AllHeld(s.workers)| <= CAPACITY
    && if s.drained then
         s.queues == map[] && AllHeld(s.workers) == multiset{} && s.count == 0
       else
         Balanced(s.ready, s.sending, AllHeld(s.workers), s.queues.Keys) && s.count == Total(s.queues)
           && s.count <= CAPACITY
  }

  /** A busy worker has the front item of its key. */
  ghost predicate WorkersOK(workers: seq<Stage>, queues: Queues) {
    forall w :: 0 <= w < |workers| && (workers[w].Working? || workers[w].Answering?) ==>
      workers[w].key in queues && queues[workers[w].key] != [] && queues[workers[w].key][0] == workers[w].ticket
  }

  ghost predicate BeingAnswered(workers: seq<Stage>, ticket: nat) {
    exists w :: 0 <= w < |workers| && workers[w].Answering? && workers[w].ticket == ticket
  }

  ghost predicate Pending(s: State, ticket: nat) {
    ticket < |s.keys| &&
    ticket in QueueOf(if s.drained then s.left else s.queues, s.keys[ticket]) && !BeingAnswered(s.workers, ticket)
  }

  /** Answers are unique, and the tickets without one are those still pending. */
  ghost predicate AnswersOK(s: State) {
    && (forall t: nat :: t < |s.keys| ==> (Pending(s, t) <==> Answered(t) !in s.log))
    && (forall i, j :: 0 <= i < j < |s.log| && s.log[i].Answered? ==> s.log[j] != s.log[i])
  }

  /** An item is started only while it is unanswered and everything submitted
      before it under the same key has been answered. */
  ghost predicate InTurn(keys: seq<string>, log: seq<Event>, i: nat)
    requires i < |log|
  {
    log[i].Started? && log[i].ticket < |keys| ==>
      && Answered(log[i].ticket) !in log[..i]
      && forall a: nat :: a < log[i].ticket && keys[a] == keys[log[i].ticket] ==> Answered(a) in log[..i]
  }

  ghost predicate OrderOK(keys: seq<string>, log: seq<Event>) {
    forall i: nat :: i < |log| ==> log[i].ticket < |keys| && InTurn(keys, log, i)
  }

  /** An item that was started and has no answer is in a worker's hands. */
  ghost predicate StartsOK(s: State) {
    && (forall i, j :: 0 <= i < j < |s.log| && s.log[i].Started? ==> s.log[j] != s.log[i])
    && (forall t: nat :: t < |s.keys| && Started(t) in s.log && Answered(t) !in s.log ==>
          exists w :: 0 <= w < |s.workers| && s.workers[w] == Working(s.keys[t], t))
  }

  ghost predicate PhasesOK(s: State) {
    && |s.workers| == WORKERS
    && (s.closed ==> s.cancelled) && (s.drained ==> s.closed)
    && (s.drained ==> s.queues == map[] && forall w :: 0 <= w < |s.workers| ==> s.workers[w].Exited?)
    && (!s.drained ==> s.left == map[])
  }

  ghost predicate Inv(s: State) {
    && PhasesOK(s) && QueuesOK(s.queues, s.keys) && QueuesOK(s.left, s.keys) && TokensOK(s)
    && WorkersOK(s.workers, s.queues) && AnswersOK(s) && OrderOK(s.keys, s.log) && StartsOK(s)
  }

  // What one step does to each part

  lemma PhasesStep(s: State, op: Op)
    requires Inv(s) && Enabled(s, op)
    ensures PhasesOK(Step(s, op))
  {
    hide QueuesOK, TokensOK, WorkersOK, AnswersOK, OrderOK, StartsOK;
  }

  lemma QueuesGrown(queues: Queues, keys: seq<string>, key: string)
    requires QueuesOK(queues, keys)
    ensures QueuesOK(queues, keys + [key])
    ensures QueuesOK(queues[key := QueueOf(queues, key) + [|keys|]], keys + [key])
  {
    hide QueueOK;
    forall other | other in queues
      ensures QueueOK(queues[other], other, keys + [key])
    {
      QueueKept(queues[other], other, keys, key);
    }
    QueuePushed(QueueOf(queues, key), keys, key);
  }

  lemma QueueKept(queue: seq<nat>, key: string, keys: seq<string>, more: string)
    requires QueueOK(queue, key, keys)
    ensures QueueOK(queue, key, keys + [more])
  {
    hide Sorted;
  }

  lemma QueuePushed(queue: seq<nat>, keys: seq<string>, key: string)
    requires queue == [] || QueueOK(queue, key, keys)
    ensures QueueOK(queue + [|keys|], key, keys + [key])
  {
    var longer := queue + [|keys|];
    forall i | 0 <= i < |longer|
      ensures longer[i] < |keys + [key]| && (keys + [key])[longer[i]] == key
    {
      assert i < |queue| ==> longer[i] == queue[i] < |keys|;
    }
  }

  lemma QueuesPopped(queues: Queues, keys: seq<string>, key: string)
    requires QueuesOK(queues, keys) && key in queues
    ensures QueuesOK(Popped(queues, key), keys)
  {
    assert |queues[key]| > 1 ==> QueueOK(queues[key][1..], key, keys);
  }

  lemma QueuesStep(s: State, op: Op)
    requires Inv(s) && Enabled(s, op)
    ensures QueuesOK(Step(s, op).queues, Step(s, op).keys) && QueuesOK(Step(s, op).left, Step(s, op).keys)
  {
    hide TokensOK, WorkersOK, AnswersOK, OrderOK, StartsOK, QueuesOK, Popped, Sorted;
    match op
    case Submit(key, _, _) =>
      QueuesGrown(s.queues, s.keys, key);
      QueuesGrown(s.left, s.keys, key);
    case Advance(w) =>
      if QueueOf(s.queues, s.workers[w].key) != [] {
        QueuesPopped(s.queues, s.keys, s.workers[w].key);
      }
    case Drain => NoQueues(s.keys);
    case Flush(key) =>
      if s.left[key] != [] {
        QueuesPopped(s.left, s.keys, key);
      }
      QueuesDropped(s.left, s.keys, key);
    case _ =>
  }

  lemma NoQueues(keys: seq<string>)
    ensures QueuesOK(map[], keys)
  {
  }

  lemma QueuesDropped(queues: Queues, keys: seq<string>, key: string)
    requires QueuesOK(queues, keys)
    ensures QueuesOK(queues - {key}, keys)
  {
  }

  lemma TokensBounded(s: State)
    requires Balanced(s.ready, s.sending, AllHeld(s.workers), s.queues.Keys) && s.count == Total(s.queues) <= CAPACITY
    requires QueuesOK(s.queues, s.keys)
    ensures |s.ready| + |s.sending| + |AllHeld(s.workers)| <= CAPACITY
  {
    hide Total, AllHeld, Balanced, Sorted;
    KeysBounded(s.queues);
    BalancedCount(s.ready, s.sending, AllHeld(s.workers), s.queues.Keys);
  }

  lemma SubmitTokens(s: State, op: Op)
    requires Inv(s) && op.Submit?
    ensures TokensOK(Step(s, op))
  {
    hide WorkersOK, AnswersOK, OrderOK, StartsOK, Total, AllHeld, QueuesOK, Balanced;
    var s' := Step(s, op);
    if s' != s {
      TotalSet(s.queues, op.key, QueueOf(s.queues, op.key) + [|s.keys|]);
      assert s'.queues.Keys == s.queues.Keys + {op.key};
      if op.key in s.queues {
        assert s'.queues.Keys == s.queues.Keys;
      } else {
        BalancedNew(s.ready, s.sending, AllHeld(s.workers), s.queues.Keys, op.key);
      }
      QueuesStep(s, op);
      TokensBounded(s');
    }
  }

  lemma AdvanceTokens(s: State, w: nat)
    requires Inv(s) && Enabled(s, Advance(w))
    ensures TokensOK(Step(s, Advance(w)))
  {
    hide WorkersOK, AnswersOK, OrderOK, StartsOK, Total, AllHeld, Sorted, Balanced;
    var s' := Step(s, Advance(w));
    var key := s.workers[w].key;
    TokenHeld(s, w);
    PoppedTotal(s.queues, key);
    if key in s'.queues {
      SameToken(s.workers, w, s'.workers[w]);
      assert s'.queues.Keys == s.queues.Keys;
    } else {
      TokenGone(s.workers, w);
      assert s'.queues.Keys == s.queues.Keys - {key};
      BalancedGone(s.ready, s.sending, AllHeld(s'.workers), s.queues.Keys, key);
    }
    QueuesStep(s, Advance(w));
    TokensBounded(s');
  }

  lemma TakeTokens(s: State, w: nat)
    requires Inv(s) && Enabled(s, Take(w))
    ensures TokensOK(Step(s, Take(w)))
  {
    hide QueuesOK, WorkersOK, AnswersOK, OrderOK, StartsOK, Total, AllHeld, Balanced, Held;
    TokenTaken(s.workers, w, s.ready[0]);
    BalancedTake(s.ready, s.sending, AllHeld(s.workers), s.queues.Keys);
  }

  lemma RequeueTokens(s: State, w: nat)
    requires Inv(s) && Enabled(s, Requeue(w))
    ensures TokensOK(Step(s, Requeue(w)))
  {
    hide QueuesOK, WorkersOK, AnswersOK, OrderOK, StartsOK, Total, AllHeld, Balanced, Held;
    TokenGone(s.workers, w);
    BalancedReturn(s.ready, s.sending, AllHeld(s.workers[w := Idle]), s.queues.Keys, s.workers[w].key);
  }

  /** The steps that leave a worker with the token it has, or without one. */
  lemma SameTokens(s: State, op: Op)
    requires Inv(s) && Enabled(s, op) && (op.Peek? || op.Answer? || op.Exit?)
    ensures TokensOK(Step(s, op))
  {
    hide QueuesOK, WorkersOK, AnswersOK, OrderOK, StartsOK, Total, AllHeld, Balanced;
    var w := op.worker;
    var stage := Step(s, op).workers[w];
    assert Held(stage) == Held(s.workers[w]) by {
      if op.Peek? {
        TokenHeld(s, w);
      }
    }
    hide Held;
    SameToken(s.workers, w, stage);
  }

  /** A token is taken and returned, moves, or is created with its key and given
      up with it. */
  lemma TokensStep(s: State, op: Op)
    requires Inv(s) && Enabled(s, op)
    ensures TokensOK(Step(s, op))
  {
    hide WorkersOK, AnswersOK, OrderOK, StartsOK, Total, AllHeld, QueuesOK, Popped, Balanced;
    var s' := Step(s, op);
    match op
    case Submit(_, _, _) => SubmitTokens(s, op);
    case Send(key) =>
      if !s.drained {
        BalancedSend(s.ready, s.sending, AllHeld(s.workers), s.queues.Keys, key);
      }
    case Take(w) => TakeTokens(s, w);
    case Peek(_) => SameTokens(s, op);
    case Answer(_) => SameTokens(s, op);
    case Advance(w) => AdvanceTokens(s, w);
    case Requeue(w) => RequeueTokens(s, w);
    case Exit(_) => SameTokens(s, op);
    case Drain => NoneHeld(s.workers);
    case _ =>
  }

  /** A worker's key has work: what it finds is never an empty queue. */
  lemma TokenHeld(s: State, w: nat)
    requires TokensOK(s) && !s.drained && QueuesOK(s.queues, s.keys)
    requires w < |s.workers| && !s.workers[w].Idle? && !s.workers[w].Exited?
    ensures s.workers[w].key in s.queues && s.queues[s.workers[w].key] != []
  {
    hide Total, AllHeld, Balanced, Sorted;
    HeldBy(s.workers, w);
    assert s.workers[w].key in AllHeld(s.workers);
    BalancedCount(s.ready, s.sending, AllHeld(s.workers), s.queues.Keys);
  }

  lemma SameToken(workers: seq<Stage>, w: nat, stage: Stage)
    requires w < |workers| && Held(stage) == Held(workers[w])
    ensures AllHeld(workers[w := stage]) == AllHeld(workers)
  {
    hide AllHeld, Held;
    HeldUpdate(workers, w, stage);
    CancelSame(AllHeld(workers[w := stage]), AllHeld(workers), Held(stage));
  }

  lemma CancelSame(a: multiset<string>, b: multiset<string>, c: multiset<string>)
    requires a + c == b + c
    ensures a == b
  {
    assert a == (a + c) - c && b == (b + c) - c;
  }

  lemma TokenTaken(workers: seq<Stage>, w: nat, key: string)
    requires w < |workers| && workers[w].Idle?
    ensures AllHeld(workers[w := Woken(key)]) == AllHeld(workers) + multiset{key}
  {
    HeldUpdate(workers, w, Woken(key));
    assert AllHeld(workers[w := Woken(key)]) + multiset{} == AllHeld(workers[w := Woken(key)]);
  }

  lemma TokenGone(workers: seq<Stage>, w: nat)
    requires w < |workers| && !workers[w].Idle? && !workers[w].Exited?
    ensures AllHeld(workers[w := Idle]) + multiset{workers[w].key} == AllHeld(workers)
  {
    HeldUpdate(workers, w, Idle);
    assert AllHeld(workers) + multiset{} == AllHeld(workers);
  }

  lemma TotalPositive(queues: Queues, key: string)
    requires key in queues
    ensures Total(queues) >= |queues[key]|
  {
    hide Sum;
    Removed(queues, key, Length);
    NotNegative(queues - {key}, Length);
  }

  /** No two workers hold the same key. */
  lemma OneHolder(s: State, v: nat, w: nat)
    requires TokensOK(s) && !s.drained && v < |s.workers| && w < |s.workers| && v != w
    requires Held(s.workers[v]) != multiset{} && Held(s.workers[w]) != multiset{}
    ensures s.workers[v].key != s.workers[w].key
  {
    hide AllHeld, Total, Balanced;
    HeldTwice(s.workers, if v < w then v else w, if v < w then w else v);
    BalancedCount(s.ready, s.sending, AllHeld(s.workers), s.queues.Keys);
    var key := s.workers[v].key;
    assert (Held(s.workers[v]) + Held(s.workers[w]))[key] <= AllHeld(s.workers)[key] <= 1;
  }

  /** Removing the front of one worker's queue does not touch another's. */
  lemma AdvanceWorkers(s: State, w: nat)
    requires Inv(s) && Enabled(s, Advance(w))
    ensures WorkersOK(Step(s, Advance(w)).workers, Step(s, Advance(w)).queues)
  {
    hide TokensOK, AnswersOK, OrderOK, StartsOK, QueuesOK;
    var s' := Step(s, Advance(w));
    var key := s.workers[w].key;
    assert forall other :: other != key && other in s.queues ==>
      other in s'.queues && s'.queues[other] == s.queues[other];
    forall v: nat | v < |s.workers| && v != w && (s.workers[v].Working? || s.workers[v].Answering?)
      ensures s.workers[v].key != key
    {
      OneHolder(s, v, w);
    }
  }

  lemma WorkersStep(s: State, op: Op)
    requires Inv(s) && Enabled(s, op)
    ensures WorkersOK(Step(s, op).workers, Step(s, op).queues)
  {
    hide TokensOK, AnswersOK, OrderOK, StartsOK, QueuesOK, Popped;
    if op.Advance? {
      AdvanceWorkers(s, op.worker);
    }
  }

  /** A worker's step that neither begins nor ends an answer. */
  lemma SameAnswering(workers: seq<Stage>, w: nat, stage: Stage, ticket: nat)
    requires w < |workers| && !workers[w].Answering? && !stage.Answering?
    ensures BeingAnswered(workers[w := stage], ticket) <==> BeingAnswered(workers, ticket)
  {
    var after := workers[w := stage];
    if BeingAnswered(workers, ticket) {
      var v :| 0 <= v < |workers| && workers[v].Answering? && workers[v].ticket == ticket;
      assert after[v].Answering?;
    }
  }

  lemma AnswerBegins(workers: seq<Stage>, w: nat, ticket: nat)
    requires w < |workers| && workers[w].Working?
    ensures var after := workers[w := Answering(workers[w].key, workers[w].ticket)];
            BeingAnswered(after, ticket) <==> BeingAnswered(workers, ticket) || ticket == workers[w].ticket
  {
    var after := workers[w := Answering(workers[w].key, workers[w].ticket)];
    assert after[w].Answering?;
    if BeingAnswered(workers, ticket) {
      var v :| 0 <= v < |workers| && workers[v].Answering? && workers[v].ticket == ticket;
      assert after[v].Answering?;
    }
  }

  /** The front of a queue is nowhere else in it. */
  lemma PoppedMembers(queues: Queues, keys: seq<string>, key: string, other: string, ticket: nat)
    requires QueuesOK(queues, keys) && key in queues
    ensures ticket in QueueOf(Popped(queues, key), other) <==>
            ticket in QueueOf(queues, other) && !(key == other && ticket == queues[key][0])
  {
    var queue := queues[key];
    assert Sorted(queue);
    assert queue == [queue[0]] + queue[1..];
  }

  /** A started item that a worker has is still unanswered. */
  lemma NotYetAnswered(s: State, w: nat)
    requires Inv(s) && w < |s.workers| && s.workers[w].Working?
    ensures s.workers[w].ticket < |s.keys| && Pending(s, s.workers[w].ticket)
  {
    hide TokensOK, OrderOK, StartsOK, AnswersOK;
    var ticket := s.workers[w].ticket;
    if BeingAnswered(s.workers, ticket) {
      var v: nat :| v < |s.workers| && s.workers[v].Answering? && s.workers[v].ticket == ticket;
      OneHolder(s, v, w);
    }
  }

  lemma SubmitAnswers(s: State, op: Op, t: nat)
    requires Inv(s) && op.Submit? && t < |Step(s, op).keys|
    ensures var s' := Step(s, op); Pending(s', t) <==> Answered(t) !in s'.log
  {
    hide TokensOK, StartsOK, InTurn;
    var s' := Step(s, op);
    assert s'.workers == s.workers && s'.log == s.log;
    if t == |s.keys| {
      assert s'.queues[op.key][|QueueOf(s.queues, op.key)|] == t;
    } else {
      assert forall x :: x in QueueOf(s'.queues, s.keys[t]) ==> x in QueueOf(s.queues, s.keys[t]) || x == |s.keys|;
      assert forall x :: x in QueueOf(s.queues, s.keys[t]) ==> x in QueueOf(s'.queues, s.keys[t]);
    }
  }

  lemma AdvanceAnswers(s: State, w: nat, t: nat)
    requires Inv(s) && Enabled(s, Advance(w)) && t < |s.keys|
    ensures var s' := Step(s, Advance(w)); Pending(s', t) <==> Answered(t) !in s'.log
  {
    hide TokensOK, StartsOK, OrderOK;
    var s' := Step(s, Advance(w));
    var key := s.workers[w].key;
    var ticket := s.workers[w].ticket;
    PoppedMembers(s.queues, s.keys, key, s.keys[t], t);
    if t != ticket {
      if BeingAnswered(s.workers, t) {
        var v :| 0 <= v < |s.workers| && s.workers[v].Answering? && s.workers[v].ticket == t;
        assert s'.workers[v].Answering?;
      }
    } else {
      assert BeingAnswered(s.workers, t);
    }
  }

  lemma PendingStep(s: State, op: Op, t: nat)
    requires Inv(s) && Enabled(s, op) && t < |Step(s, op).keys|
    ensures var s' := Step(s, op); Pending(s', t) <==> Answered(t) !in s'.log
  {
    hide TokensOK, StartsOK, InTurn, QueuesOK, Sorted, BeingAnswered;
    var s' := Step(s, op);
    match op
    case Submit(_, _, _) => SubmitAnswers(s, op, t);
    case Answer(w) => AnswerBegins(s.workers, w, t);
    case Advance(w) => AdvanceAnswers(s, w, t);
    case Flush(key) => FlushAnswers(s, key, t);
    case Take(w) => SameAnswering(s.workers, w, s'.workers[w], t);
    case Peek(w) => SameAnswering(s.workers, w, s'.workers[w], t);
    case Requeue(w) => SameAnswering(s.workers, w, s'.workers[w], t);
    case Exit(w) => SameAnswering(s.workers, w, s'.workers[w], t);
    case _ =>
  }

  lemma FlushAnswers(s: State, key: string, t: nat)
    requires Inv(s) && Enabled(s, Flush(key)) && t < |s.keys|
    ensures var s' := Step(s, Flush(key)); Pending(s', t) <==> Answered(t) !in s'.log
  {
    hide TokensOK, StartsOK, OrderOK;
    PoppedMembers(s.left, s.keys, key, s.keys[t], t);
  }

  lemma FlushFront(s: State, key: string)
    requires Inv(s) && Enabled(s, Flush(key))
    ensures s.left[key] != [] && s.left[key][0] < |s.keys| && Pending(s, s.left[key][0])
  {
    hide TokensOK, StartsOK, OrderOK, AnswersOK;
    assert s.left[key][0] in s.left[key];
  }

  lemma AnswersStep(s: State, op: Op)
    requires Inv(s) && Enabled(s, op)
    ensures AnswersOK(Step(s, op))
  {
    hide TokensOK, StartsOK, OrderOK, QueuesOK, WorkersOK, Pending;
    var s' := Step(s, op);
    forall t: nat | t < |s'.keys|
      ensures Pending(s', t) <==> Answered(t) !in s'.log
    {
      PendingStep(s, op, t);
    }
    if op.Answer? {
      NotYetAnswered(s, op.worker);
    } else if op.Flush? {
      FlushFront(s, op.key);
    }
  }

  /** What a worker finds at the front was never started, and everything before
      it under the same key is answered. */
  lemma NextInTurn(s: State, w: nat)
    requires Inv(s) && Enabled(s, Peek(w))
    ensures var queue := QueueOf(s.queues, s.workers[w].key);
            && queue != [] && queue[0] < |s.keys| && s.keys[queue[0]] == s.workers[w].key
            && Answered(queue[0]) !in s.log && Started(queue[0]) !in s.log
            && forall a: nat :: a < queue[0] && s.keys[a] == s.keys[queue[0]] ==> Answered(a) in s.log
  {
    hide OrderOK, Balanced, Total, AllHeld;
    TokenHeld(s, w);
    var key := s.workers[w].key;
    var queue := s.queues[key];
    var t := queue[0];
    assert t in queue;
    if BeingAnswered(s.workers, t) {
      var v: nat :| v < |s.workers| && s.workers[v].Answering? && s.workers[v].ticket == t;
      OneHolder(s, v, w);
    }
    assert Pending(s, t);
    if Started(t) in s.log {
      var v: nat :| v < |s.workers| && s.workers[v] == Working(s.keys[t], t);
      OneHolder(s, v, w);
    }
    forall a: nat | a < t && s.keys[a] == key
      ensures Answered(a) in s.log
    {
      assert Sorted(queue);
      assert a !in queue;
      assert !Pending(s, a);
    }
  }

  lemma OrderStep(s: State, op: Op)
    requires Inv(s) && Enabled(s, op)
    ensures OrderOK(Step(s, op).keys, Step(s, op).log)
  {
    hide TokensOK, StartsOK, AnswersOK, InTurn, Sorted;
    var s' := Step(s, op);
    if op.Peek? {
      NextInTurn(s, op.worker);
    }
    forall i: nat | i < |s'.log|
      ensures s'.log[i].ticket < |s'.keys| && InTurn(s'.keys, s'.log, i)
    {
      if i < |s.log| {
        KeptInTurn(s.keys, s.log, s'.keys, s'.log, i);
      } else {
        NewInTurn(s, op);
      }
    }
  }

  lemma KeptInTurn(keys: seq<string>, log: seq<Event>, keys': seq<string>, log': seq<Event>, i: nat)
    requires keys <= keys' && log <= log' && i < |log| && log[i].ticket < |keys| && InTurn(keys, log, i)
    ensures InTurn(keys', log', i)
  {
    assert log'[..i] == log[..i];
  }

  lemma NewInTurn(s: State, op: Op)
    requires Inv(s) && Enabled(s, op) && |Step(s, op).log| > |s.log|
    ensures var s' := Step(s, op);
              |s'.log| == |s.log| + 1 && s'.log[|s.log|].ticket < |s'.keys| && InTurn(s'.keys, s'.log, |s.log|)
  {
    hide TokensOK, StartsOK, AnswersOK, OrderOK;
    var s' := Step(s, op);
    assert s'.log[..|s.log|] == s.log;
    if op.Peek? {
      NextInTurn(s, op.worker);
    }
  }

  lemma StartsStep(s: State, op: Op)
    requires Inv(s) && Enabled(s, op)
    ensures StartsOK(Step(s, op))
  {
    hide TokensOK, OrderOK, AnswersOK, QueuesOK;
    var s' := Step(s, op);
    if op.Peek? {
      NextInTurn(s, op.worker);
    }
    forall t: nat | t < |s'.keys| && Started(t) in s'.log && Answered(t) !in s'.log
      ensures exists w :: 0 <= w < |s'.workers| && s'.workers[w] == Working(s'.keys[t], t)
    {
      if Started(t) in s.log {
        StartedBefore(s, t);
        var w: nat :| w < |s.workers| && s.workers[w] == Working(s.keys[t], t);
        assert s'.workers[w] == s.workers[w];
      } else {
        assert s'.workers[op.worker] == Working(s'.keys[t], t);
      }
    }
  }

  lemma StartedBefore(s: State, t: nat)
    requires OrderOK(s.keys, s.log) && Started(t) in s.log
    ensures t < |s.keys|
  {
  }

  lemma StepInv(s: State, op: Op)
    requires Inv(s) && Enabled(s, op)
    ensures Inv(Step(s, op))
  {
    hide *;
    PhasesStep(s, op);
    QueuesStep(s, op);
    TokensStep(s, op);
    WorkersStep(s, op);
    AnswersStep(s, op);
    OrderStep(s, op);
    StartsStep(s, op);
    Gathered(Step(s, op));
  }

  lemma Gathered(s: State)
    requires PhasesOK(s) && QueuesOK(s.queues, s.keys) && QueuesOK(s.left, s.keys) && TokensOK(s)
    requires WorkersOK(s.workers, s.queues) && AnswersOK(s) && OrderOK(s.keys, s.log) && StartsOK(s)
    ensures Inv(s)
  {
    hide PhasesOK, QueuesOK, TokensOK, WorkersOK, AnswersOK, OrderOK, StartsOK;
  }

  // Runs

  ghost predicate CanRun(s: State, ops: seq<Op>)
    decreases |ops|
  {
    ops == [] || (Enabled(s, ops[0]) && CanRun(Step(s, ops[0]), ops[1..]))
  }

  ghost function Run(s: State, ops: seq<Op>): State
    requires CanRun(s, ops)
    decreases |ops|
  {
    if ops == [] then s else Run(Step(s, ops[0]), ops[1..])
  }

  lemma StartInv()
    ensures Inv(START)
  {
    NoneHeld(START.workers);
  }

  lemma {:induction false} RunInv(s: State, ops: seq<Op>)
    requires Inv(s) && CanRun(s, ops)
    ensures Inv(Run(s, ops))
    decreases |ops|
  {
    hide Inv, Step, Enabled;
    if ops != [] {
      StepInv(s, ops[0]);
      RunInv(Step(s, ops[0]), ops[1..]);
    }
  }

  /** Sending on `ready` never waits: neither a submitter nor a worker that has
      a token in hand can find the channel full. */
  lemma SendNeverBlocks(ops: seq<Op>, key: string, w: nat)
    requires CanRun(START, ops)
    ensures var s := Run(START, ops);
            && (key in s.sending ==> Enabled(s, Send(key)))
            && (w < |s.workers| && s.workers[w].Returning? ==> Enabled(s, Requeue(w)))
  {
    hide *;
    StartInv();
    RunInv(START, ops);
    RoomToSend(Run(START, ops), key);
    RoomToRequeue(Run(START, ops), w);
  }

  lemma RoomToSend(s: State, key: string)
    requires Inv(s)
    ensures key in s.sending ==> Enabled(s, Send(key))
  {
    hide PhasesOK, WorkersOK, AnswersOK, OrderOK, StartsOK, QueuesOK, Balanced, Total, AllHeld;
    if key in s.sending {
      assert s.sending - multiset{key} + multiset{key} == s.sending;
    }
  }

  lemma RoomToRequeue(s: State, w: nat)
    requires Inv(s)
    ensures w < |s.workers| && s.workers[w].Returning? ==> Enabled(s, Requeue(w))
  {
    hide PhasesOK, WorkersOK, AnswersOK, OrderOK, StartsOK, QueuesOK, Balanced, Total, AllHeld;
    if w < |s.workers| && s.workers[w].Returning? {
      TokenGone(s.workers, w);
    }
  }

  /** No key is with two workers at once, a worker that takes a token finds work
      under it, and one that removes an item removes the one it answered. */
  lemma OneWorkerPerKey(ops: seq<Op>, v: nat, w: nat)
    requires CanRun(START, ops)
    requires var s := Run(START, ops);
             v < |s.workers| && !s.workers[v].Idle? && !s.workers[v].Exited?
    ensures var s := Run(START, ops);
            && QueueOf(s.queues, s.workers[v].key) != []
            && (s.workers[v].Working? || s.workers[v].Answering? ==>
                QueueOf(s.queues, s.workers[v].key)[0] == s.workers[v].ticket)
            && (v != w && w < |s.workers| && !s.workers[w].Idle? && !s.workers[w].Exited? ==>
                s.workers[v].key != s.workers[w].key)
  {
    hide Run, CanRun, Balanced, Total, AllHeld;
    StartInv();
    RunInv(START, ops);
    var s := Run(START, ops);
    hide AnswersOK, OrderOK, StartsOK, QueuesOK;
    TokenHeld(s, v);
    if v != w && w < |s.workers| && !s.workers[w].Idle? && !s.workers[w].Exited? {
      OneHolder(s, v, w);
    }
  }

  /** The items of one key are handled strictly one after the other, in the order
      they were submitted: when one starts, it has no result yet, and everything
      submitted before it under that key has one. */
  lemma KeyOrder(ops: seq<Op>, i: nat, a: nat)
    requires CanRun(START, ops)
    requires var s := Run(START, ops);
             i < |s.log| && s.log[i].Started? && a < s.log[i].ticket && s.log[i].ticket < |s.keys|
               && s.keys[a] == s.keys[s.log[i].ticket]
    ensures var s := Run(START, ops);
            && Answered(a) in s.log[..i] && Answered(s.log[i].ticket) !in s.log[..i]
            && s.log[i] !in s.log[..i]
  {
    hide Run, CanRun, Step, Enabled;
    StartInv();
    RunInv(START, ops);
    hide PhasesOK, TokensOK, WorkersOK, AnswersOK, QueuesOK;
    assert InTurn(Run(START, ops).keys, Run(START, ops).log, i);
  }

  /** How often an item was answered. */
  ghost function Answers(log: seq<Event>, ticket: nat): nat {
    multiset(log)[Answered(ticket)]
  }

  lemma {:induction false} CountOnce(log: seq<Event>, e: Event)
    requires forall i, j :: 0 <= i < j < |log| && log[i] == e ==> log[j] != e
    ensures multiset(log)[e] == if e in log then 1 else 0
    decreases |log|
  {
    if log != [] {
      var last := |log| - 1;
      assert log == log[..last] + [log[last]];
      CountOnce(log[..last], e);
    }
  }

  /** Every accepted item gets at most one result at any time, exactly one once
      shutdown has finished, and an item that shutdown answers was never started. */
  lemma OneResult(ops: seq<Op>, t: nat)
    requires CanRun(START, ops) && t < |Run(START, ops).keys|
    ensures var s := Run(START, ops);
            && Answers(s.log, t) <= 1
            && (s.drained && s.left == map[] ==> Answers(s.log, t) == 1)
            && (s.drained && Answers(s.log, t) == 0 ==> Started(t) !in s.log && t in QueueOf(s.left, s.keys[t]))
  {
    hide Run, CanRun, Step, Enabled;
    StartInv();
    RunInv(START, ops);
    var s := Run(START, ops);
    hide TokensOK, WorkersOK, OrderOK, QueuesOK;
    CountOnce(s.log, Answered(t));
  }

  /** The normalizer's own fields, with the goroutines' positions beside them.
      Every method is one atomic step. */
  class IngressNormalizer {
    var queues: Queues
    var ready: seq<string>
    var count: nat
    var cancelled: bool
    var closed: bool
    var workers: seq<Stage>
    ghost var sending: multiset<string>
    ghost var drained: bool
    var left: Queues
    var keys: seq<string>
    ghost var log: seq<Event>

    ghost function Abs(): State
      reads this
    {
      State(queues, ready, count, cancelled, closed, workers, sending, drained, left, keys, log)
    }

    ghost predicate Valid()
      reads this
    {
      Inv(Abs())
    }

    constructor ()
      ensures Valid() && Abs() == START
    {
      hide Inv;
      queues, ready, count, cancelled, closed := map[], [], 0, false, false;
      workers := seq(WORKERS, _ => Idle);
      sending, drained, left, keys, log := multiset{}, false, map[], [], [];
      new;
      StartInv();
    }

    /** The locked region of submit. `wake` tells the caller to send the key. */
    method Submit(key: string, callable: bool, expired: bool) returns (verdict: Verdict, wake: bool)
      requires Valid()
      modifies this
      ensures Valid() && Abs() == Step(old(Abs()), Op.Submit(key, callable, expired))
      ensures verdict == Refusal(old(Abs()), key, callable, expired)
      ensures wake <==> sending != old(sending)
      ensures verdict.Taken? <==>
                !old(closed) && !old(cancelled) && !expired && callable && key != "" && old(count) < 128
      ensures verdict.Taken? ==>
                && verdict == Taken(|old(keys)|) && keys == old(keys) + [key] && count == old(count) + 1
                && key in queues && queues[key] == QueueOf(old(queues), key) + [|old(keys)|]
                && (wake <==> key !in old(queues))
      ensures !verdict.Taken? ==> Abs() == old(Abs()) && !wake
    {
      hide Inv;
      StepInv(Abs(), Op.Submit(key, callable, expired));
      if closed || cancelled {
        return ErrClosed, false;
      }
      if expired {
        return ErrCancelled, false;
      }
      if key == "" || !callable {
        return ErrInvalid, false;
      }
      if count >= CAPACITY {
        return ErrCapacity, false;
      }
      var exists0 := key in queues;
      verdict := Taken(|keys|);
      wake := !exists0;
      queues := queues[key := (if exists0 then queues[key] else []) + [|keys|]];
      count := count + 1;
      keys := keys + [key];
      if wake {
        assert |sending + multiset{key}| == |sending| + 1;
        sending := sending + multiset{key};
      }
    }

    /** n.ready <- key, by the submitter. */
    method Send(key: string)
      requires Valid() && key in sending
      modifies this
      ensures Valid() && Enabled(old(Abs()), Op.Send(key)) && Abs() == Step(old(Abs()), Op.Send(key))
    {
      hide Inv;
      RoomToSend(Abs(), key);
      StepInv(Abs(), Op.Send(key));
      sending := sending - multiset{key};
      ready := ready + [key];
    }

    /** key := <-n.ready */
    method Take(w: nat)
      requires Valid() && Enabled(Abs(), Op.Take(w))
      modifies this
      ensures Valid() && Abs() == Step(old(Abs()), Op.Take(w))
    {
      hide Inv;
      StepInv(Abs(), Op.Take(w));
      workers := workers[w := Woken(ready[0])];
      ready := ready[1..];
    }

    /** The worker's first locked region. There is always work under the key. */
    method Peek(w: nat) returns (item: nat)
      requires Valid() && Enabled(Abs(), Op.Peek(w))
      modifies this
      ensures Valid() && Abs() == Step(old(Abs()), Op.Peek(w))
      ensures workers[w] == Working(old(workers)[w].key, item)
    {
      hide Inv;
      NextInTurn(Abs(), w);
      StepInv(Abs(), Op.Peek(w));
      var key := workers[w].key;
      item := queues[key][0];
      workers := workers[w := Working(key, item)];
      log := log + [Started(item)];
    }

    /** item.result <- result; close(item.result) */
    method Answer(w: nat)
      requires Valid() && Enabled(Abs(), Op.Answer(w))
      modifies this
      ensures Valid() && Abs() == Step(old(Abs()), Op.Answer(w))
    {
      hide Inv;
      StepInv(Abs(), Op.Answer(w));
      var item := workers[w].ticket;
      workers := workers[w := Answering(workers[w].key, item)];
      log := log + [Answered(item)];
    }

    /** The worker's second locked region. */
    method Advance(w: nat) returns (requeue: bool)
      requires Valid() && Enabled(Abs(), Op.Advance(w))
      modifies this
      ensures Valid() && Abs() == Step(old(Abs()), Op.Advance(w))
      ensures requeue <==> workers[w].Returning?
    {
      hide Inv, Total;
      BusyFront(Abs(), w);
      StepInv(Abs(), Op.Advance(w));
      var key := workers[w].key;
      queues := queues[key := queues[key][1..]];
      count := count - 1;
      requeue := |queues[key]| != 0;
      if !requeue {
        queues := queues - {key};
      }
      workers := workers[w := if requeue then Returning(key) else Idle];
      assert queues == Popped(old(queues), key);
    }

    /** n.ready <- key, by the worker. */
    method Requeue(w: nat)
      requires Valid() && w < |workers| && workers[w].Returning?
      modifies this
      ensures Valid() && Enabled(old(Abs()), Op.Requeue(w)) && Abs() == Step(old(Abs()), Op.Requeue(w))
    {
      hide Inv;
      RoomToRequeue(Abs(), w);
      StepInv(Abs(), Op.Requeue(w));
      ready := ready + [workers[w].key];
      workers := workers[w := Idle];
    }

    method Exit(w: nat)
      requires Valid() && Enabled(Abs(), Op.Exit(w))
      modifies this
      ensures Valid() && Abs() == Step(old(Abs()), Op.Exit(w))
    {
      hide Inv;
      StepInv(Abs(), Op.Exit(w));
      workers := workers[w := Exited];
    }

    method Cancel()
      requires Valid()
      modifies this
      ensures Valid() && Abs() == Step(old(Abs()), Op.Cancel)
    {
      hide Inv;
      StepInv(Abs(), Op.Cancel);
      cancelled := true;
    }

    /** shutdown, up to waiting for the workers. */
    method Close()
      requires Valid() && cancelled && !closed
      modifies this
      ensures Valid() && Abs() == Step(old(Abs()), Op.Close)
    {
      hide Inv;
      StepInv(Abs(), Op.Close);
      closed := true;
    }

    /** shutdown, once the workers have exited: take the queues away and answer
        every item that is left. */
    method Drain()
      requires Valid() && Enabled(Abs(), Op.Drain)
      modifies this
      ensures Valid() && drained && left == map[] && queues == map[] && count == 0
      ensures keys == old(keys) && closed
      ensures forall t :: 0 <= t < |keys| ==> Answers(log, t) == 1
    {
      hide Inv, Step, Answers;
      StepInv(Abs(), Op.Drain);
      DrainTakesAll(Abs());
      left := queues;
      queues := map[];
      count := 0;
      drained := true;
      while left != map[]
        invariant Valid() && drained && closed && keys == old(keys) && queues == map[] && count == 0
        decreases Total(left)
      {
        var key :| key in left;
        FlushOne(key);
      }
      AllAnswered(Abs());
    }

    method FlushOne(key: string)
      requires Valid() && key in left
      modifies this
      ensures Valid() && Abs() == Step(old(Abs()), Op.Flush(key)) && Total(left) < Total(old(left))
      ensures drained == old(drained) && closed == old(closed) && keys == old(keys) && queues == old(queues)
              && count == old(count)
    {
      hide Inv, Total;
      FlushFront(Abs(), key);
      PoppedTotal(left, key);
      StepInv(Abs(), Op.Flush(key));
      var item := left[key][0];
      left := Popped(left, key);
      log := log + [Answered(item)];
    }
  }

  lemma BusyFront(s: State, w: nat)
    requires Inv(s) && w < |s.workers| && s.workers[w].Answering?
    ensures QueueOf(s.queues, s.workers[w].key) != [] && s.count >= 1
  {
    hide AnswersOK, OrderOK, StartsOK, Balanced, AllHeld, Sorted;
    TotalPositive(s.queues, s.workers[w].key);
  }

  lemma DrainTakesAll(s: State)
    requires Enabled(s, Op.Drain)
    ensures Step(s, Op.Drain) == s.(drained := true, left := s.queues, queues := map[], count := 0)
  {
  }

  lemma AllAnswered(s: State)
    requires Inv(s) && s.drained && s.left == map[]
    ensures forall t :: 0 <= t < |s.keys| ==> Answers(s.log, t) == 1
  {
    hide TokensOK, WorkersOK, OrderOK, StartsOK, QueuesOK, BeingAnswered;
    forall t | 0 <= t < |s.keys|
      ensures Answers(s.log, t) == 1
    {
      CountOnce(s.log, Answered(t));
    }
  }
}
