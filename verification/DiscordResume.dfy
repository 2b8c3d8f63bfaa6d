/** Listening on one Discord gateway connection: HELLO, READY or the replay up to
    RESUMED, and live events (internal/discordgateway/gateway.go:608-825; Discord
    Gateway version 10, "Resuming").

    The heartbeat goroutine, Close and cancellation act between any two locked
    regions of the listener. They are read from a script, so a statement about all
    scripts is a statement about all interleavings. */
module DiscordResume {

  const REPLAY_CAPACITY: nat := 1024

  datatype Option<+T> = None | Some(value: T)

  datatype Kind = Ready(sessionID: string, accepted: bool) | Resumed | Unrecognized | Plain

  /** `wanted`: the capture handler returns something to deliver. */
  datatype Event = Event(sequence: int, kind: Kind, wanted: bool)

  datatype Incoming =
    | Broken(code: int)
    | NoMessage
    | Hello(positive: bool, sent: bool)
    | Dispatch(event: Event)
    | NotEventData
    | Heartbeat(sent: bool)
    | HeartbeatAck
    | Reconnect
    | InvalidSession(resumable: bool)

  /** What may happen elsewhere: the heartbeat gives the connection up, the gateway
      is closed, the gateway's or the connection's context ends. */
  datatype Gust = Lost | Closed | Cancelled | Done | Calm

  /** The events a replay hands over, and those a live connection does. */
  function Wanted(events: seq<Event>): seq<Event> {
    if events == [] then []
    else
      var last := events[|events| - 1];
      Wanted(events[..|events| - 1]) + if last.wanted then [last] else []
  }

  predicate LiveWanted(e: Event) {
    e.wanted && !e.kind.Unrecognized?
  }

  function Live(events: seq<Event>): seq<Event> {
    if events == [] then []
    else
      var last := events[|events| - 1];
      Live(events[..|events| - 1]) + if LiveWanted(last) then [last] else []
  }

  predicate Replayable(events: seq<Event>) {
    forall i :: 0 <= i < |events| ==> !events[i].kind.Ready? && !events[i].kind.Resumed?
  }

  /** The listener's variables and the gateway fields it shares. `base` is what had
      been delivered before and `first` the number recorded before; `stamped` are the
      events whose number was recorded on this connection, and `turn` how many of
      them came before READY or RESUMED. */
  datatype State = State(
    active: bool, stopping: bool, cancelled: bool, done: bool,
    session: Option<string>, last: Option<int>, validated: bool, delivered: seq<Event>,
    hello: bool, ready: bool, resuming: bool, replayed: bool, checkpoint: Option<int>, replay: seq<Event>,
    base: seq<Event>, first: Option<int>, stamped: seq<Event>, turn: nat)

  predicate Current(s: State) {
    s.active && !s.stopping
  }

  /** The number of the last event that was recorded. */
  function Recorded(s: State): Option<int> {
    if s.stamped == [] then s.first else Some(s.stamped[|s.stamped| - 1].sequence)
  }

  predicate Anchored(s: State) {
    && (s.last == Recorded(s) || (s.stopping && s.session.None?))
    && (s.resuming ==> s.hello && s.checkpoint.Some? && s.checkpoint == s.first)
  }

  /** Delivered in order: the replay, if any, then everything live up to event `m`. */
  predicate DeliveredUpTo(s: State, m: nat) {
    && s.ready && s.turn <= m <= |s.stamped| && s.turn < |s.stamped|
    && s.delivered == s.base + (if s.resuming then Wanted(s.stamped[..s.turn]) else []) + Live(s.stamped[s.turn..m])
    && if s.resuming then
         s.replayed && s.stamped[s.turn].kind.Resumed? && Replayable(s.stamped[..s.turn])
         && |Wanted(s.stamped[..s.turn])| <= REPLAY_CAPACITY
       else
         !s.replayed && s.stamped[s.turn].kind.Ready?
  }

  /** After READY or RESUMED: only the very last event can be missing, and only if
      the connection was lost between recording its number and handing it over. */
  predicate Following(s: State) {
    DeliveredUpTo(s, |s.stamped|) || ((!Current(s) || s.done) && s.stamped != [] && DeliveredUpTo(s, |s.stamped| - 1))
  }

  /** Before RESUMED, with `n` events captured or passed over: whatever is wanted is
      in the replay, unless the connection is already lost. */
  predicate Gathering(s: State, n: nat) {
    && n <= |s.stamped| && Replayable(s.stamped[..n])
    && |s.replay| <= REPLAY_CAPACITY && (s.replay == Wanted(s.stamped[..n]) || !Current(s))
    && s.delivered == s.base && !s.replayed
  }

  /** Between two messages. */
  predicate Between(s: State) {
    && Anchored(s)
    && (!s.hello ==> !s.ready && !s.resuming && s.stamped == [] && s.replay == [])
    && if s.ready then Following(s)
       else if s.resuming then Gathering(s, |s.stamped|)
       else s.delivered == s.base && !s.replayed
  }

  /** A replayed event has its number recorded and still has to be captured. */
  predicate Captured(s: State, e: Event) {
    && s.resuming && !s.ready && Anchored(s) && !e.kind.Ready? && !e.kind.Resumed?
    && s.stamped != [] && s.stamped[|s.stamped| - 1] == e && Gathering(s, |s.stamped| - 1)
  }

  /** READY or RESUMED arrived where it may. */
  predicate Arrived(s: State) {
    && s.ready && s.hello && Anchored(s) && s.turn == |s.stamped|
    && if s.resuming then Gathering(s, |s.stamped|) else s.delivered == s.base && !s.replayed
  }

  /** The first `i` captured events were handed over. */
  predicate Handing(s: State, i: nat) {
    && s.resuming && s.ready && s.hello && !s.replayed && Anchored(s)
    && s.stamped != [] && s.turn == |s.stamped| - 1 && s.stamped[s.turn].kind.Resumed?
       && Replayable(s.stamped[..s.turn])
    && s.replay == Wanted(s.stamped[..s.turn]) && |s.replay| <= REPLAY_CAPACITY
    && i <= |s.replay| && s.delivered == s.base + s.replay[..i]
  }

  /** READY or RESUMED has its number recorded as the last one. */
  predicate Completing(s: State) {
    && s.ready && s.hello && Anchored(s) && s.stamped != [] && s.turn == |s.stamped| - 1
    && if s.resuming then s.stamped[s.turn].kind.Resumed? && Gathering(s, s.turn)
       else s.stamped[s.turn].kind.Ready? && s.delivered == s.base && !s.replayed
  }

  /** An event has its number recorded and still has to be handed over. */
  predicate Owing(s: State, e: Event) {
    && s.hello && Anchored(s) && s.stamped != [] && s.stamped[|s.stamped| - 1] == e
    && if s.ready then DeliveredUpTo(s, |s.stamped| - 1) else !s.resuming && s.delivered == s.base && !s.replayed
  }

  /** A connection that ends before READY, or before its replay is complete. */
  predicate Unfinished(s: State) {
    && !s.replayed && s.base <= s.delivered && s.delivered[|s.base|..] <= s.replay
       && (s.delivered != s.base ==> s.cancelled)
  }

  /** Where the loop may stop. */
  predicate Stopped(s: State) {
    && (s.last == Recorded(s) || s.session.None?)
    && (s.resuming ==> s.checkpoint.Some? && s.checkpoint == s.first)
    && (Unfinished(s) || Following(s))
  }

  /** What a finished connection leaves behind. If READY or RESUMED was reached,
      every wanted event of the replay was delivered once, in order, then every live
      one, except at most the very last; and the recorded number is the last event's.
      If a resume did not get there, the number sent in RESUME is back, unless the
      session is gone or was never validated. */
  predicate Settled(s: State) {
    && (Following(s) || Unfinished(s))
    && (s.resuming ==> s.checkpoint.Some? && s.checkpoint == s.first)
    && (s.session.Some? ==> s.last == if s.resuming && !s.replayed && s.validated then s.checkpoint else Recorded(s))
  }

  /** `after` is `before` with only interference in between. */
  predicate Weathered(before: State, after: State) {
    && after.delivered == before.delivered && after.hello == before.hello && after.ready == before.ready
    && after.resuming == before.resuming && after.replayed == before.replayed && after.checkpoint == before.checkpoint
    && after.replay == before.replay && after.base == before.base && after.first == before.first
       && after.stamped == before.stamped && after.turn == before.turn
    && (after.active ==> before.active) && (before.stopping ==> after.stopping)
    && (before.cancelled ==> after.cancelled) && (before.done ==> after.done)
    && ((after.session == before.session && after.last == before.last && after.validated == before.validated)
        || (after.stopping && after.session.None? && after.last.None? && !after.validated))
  }

  function Struck(s: State, gust: Gust): State {
    match gust
    case Lost => s.(active := false)
    case Closed => s.(stopping := true, cancelled := true, done := true, session := None, last := None,
                      validated := false)
    case Cancelled => s.(cancelled := true, done := true)
    case Done => s.(done := true)
    case Calm => s
  }

  /** The script up to the next Calm, and what remains of it. */
  function Blown(s: State, script: seq<Gust>): (State, seq<Gust>)
    decreases |script|
  {
    if script == [] then (s, [])
    else if script[0].Calm? then (s, script[1..])
    else Blown(Struck(s, script[0]), script[1..])
  }

  /** Other goroutines get two turns. */
  function Twice(s: State, script: seq<Gust>): (State, seq<Gust>) {
    var (there, rest) := Blown(s, script);
    Blown(there, rest)
  }

  lemma NoNewSession(before: State, after: State)
    requires Weathered(before, after)
    ensures before.session.None? ==> after.session.None?
  {
  }

  /** The gateway is closed at some point of the script. */
  predicate Closes(script: seq<Gust>) {
    Closed in script
  }

  lemma {:induction false} OnlyCloseClears(s: State, script: seq<Gust>)
    ensures var (there, rest) := Blown(s, script);
            (Closes(rest) ==> Closes(script)) && (s.session.Some? && there.session.None? ==> Closes(script))
    decreases |script|
  {
    hide Struck;
    if script != [] {
      StruckSession(s, script[0]);
      if !script[0].Calm? {
        OnlyCloseClears(Struck(s, script[0]), script[1..]);
      }
    }
  }

  lemma StruckSession(s: State, gust: Gust)
    ensures Struck(s, gust).session == if gust.Closed? then None else s.session
  {
  }

  lemma StruckWeathered(s: State, gust: Gust)
    ensures Weathered(s, Struck(s, gust))
  {
    hide Weathered;
    match gust
    case Lost => LostWeathered(s);
    case Closed => ClosedWeathered(s);
    case Cancelled => DoneWeathered(s, true);
    case Done => DoneWeathered(s, s.cancelled);
    case Calm => Transitive(s, s, s);
  }

  lemma LostWeathered(s: State)
    ensures Weathered(s, s.(active := false))
  {
  }

  lemma ClosedWeathered(s: State)
    ensures Weathered(s, s.(stopping := true, cancelled := true, done := true, session := None, last := None,
                            validated := false))
  {
  }

  lemma DoneWeathered(s: State, cancelled: bool)
    requires s.cancelled ==> cancelled
    ensures Weathered(s, s.(cancelled := cancelled, done := true))
  {
  }

  lemma {:induction false} BlownWeathered(s: State, script: seq<Gust>)
    ensures Weathered(s, Blown(s, script).0)
    decreases |script|
  {
    hide Weathered, Struck;
    Transitive(s, s, s);
    if script != [] && !script[0].Calm? {
      var next := Struck(s, script[0]);
      StruckWeathered(s, script[0]);
      BlownWeathered(next, script[1..]);
      Transitive(s, next, Blown(next, script[1..]).0);
    }
  }

  /** Nothing happens elsewhere for the next `k` turns. */
  predicate Quiet(script: seq<Gust>, k: nat) {
    k <= |script| && forall i :: 0 <= i < k ==> script[i].Calm?
  }

  lemma QuietTurn(s: State, script: seq<Gust>)
    requires Quiet(script, 1)
    ensures Blown(s, script) == (s, script[1..])
  {
  }

  lemma QuietTwice(s: State, script: seq<Gust>)
    requires Quiet(script, 2)
    ensures Twice(s, script) == (s, script[2..])
  {
    QuietTurn(s, script);
    assert script[1..][1..] == script[2..];
    QuietTurn(s, script[1..]);
    hide Blown;
  }

  lemma QuietAfter(script: seq<Gust>, j: nat, k: nat)
    requires Quiet(script, j + k)
    ensures Quiet(script, j) && Quiet(script[j..], k) && script[j..][k..] == script[j + k..]
  {
  }

  function Accepting(s: State, id: string): State {
    s.(validated := true, session := Some(id), ready := true, turn := |s.stamped|)
  }

  function Recording(s: State, e: Event): State {
    s.(last := Some(e.sequence), stamped := s.stamped + [e])
  }

  /** One live event handed over, or not. */
  function Handled(s: State, script: seq<Gust>, e: Event): State {
    var (first, rest) := Blown(s, script);
    if first.ready && !first.done then
      var later := Blown(first, rest).0;
      if Current(later) && LiveWanted(e) then later.(delivered := later.delivered + [e]) else later
    else first
  }

  /** What is left of the script then. */
  function HandledScript(s: State, script: seq<Gust>): seq<Gust> {
    var (first, rest) := Blown(s, script);
    if first.ready && !first.done then Blown(first, rest).1 else rest
  }

  /** Where handling an event ends: the state, the rest of the script, and whether to stop. */
  datatype Outcome = Outcome(state: State, script: seq<Gust>, stop: bool)

  /** A live event: recorded, then handed over. */
  function Lived(s: State, script: seq<Gust>, e: Event): Outcome {
    var (there, rest) := Blown(s, script);
    if !Current(there) then Outcome(there, rest, true)
    else
      Outcome(Handled(Recording(there, e), rest, e), HandledScript(Recording(there, e), rest), false)
  }

  /** An accepted READY: recorded, then handed over if the connection is still current. */
  function Completed(s: State, script: seq<Gust>, e: Event): Outcome {
    var (there, rest) := Blown(s, script);
    if !Current(there) then Outcome(there, rest, true)
    else
      var (later, left) := Blown(Recording(there, e), rest);
      if !Current(later) then Outcome(later, left, true)
      else Outcome(Handled(later, left, e), HandledScript(later, left), false)
  }

  function ReadyTaken(s: State, script: seq<Gust>, id: string, e: Event): Outcome {
    var (there, rest) := Blown(s, script);
    if !Current(there) then Outcome(there, rest, true) else Completed(Accepting(there, id), rest, e)
  }

  /** Nothing ever happens elsewhere. */
  predicate Calmly(script: seq<Gust>) {
    forall gust <- script :: gust.Calm?
  }

  lemma CalmTurn(s: State, script: seq<Gust>)
    requires Calmly(script)
    ensures Blown(s, script).0 == s && Calmly(Blown(s, script).1)
  {
  }

  /** What one message does on a current connection while nothing happens elsewhere. */
  datatype Answer = Answer(state: State, stop: bool)

  function Ending(s: State): Answer {
    Answer(s.(active := false), true)
  }

  function Cleared(s: State): State {
    s.(session := None, last := None, validated := false)
  }

  function Announced(s: State): State {
    if s.session.Some? && s.last.Some? then s.(resuming := true, checkpoint := s.last) else s
  }

  function Greeting(s: State, positive: bool, sent: bool): Answer {
    if s.hello then Ending(s)
    else
      var greeted := s.(hello := true);
      if !positive then Ending(greeted)
      else if !sent then Ending(Announced(greeted)) else Answer(Announced(greeted), false)
  }

  function WithLive(s: State, e: Event): State {
    if LiveWanted(e) then s.(delivered := s.delivered + [e]) else s
  }

  function Captures(s: State, e: Event): Answer {
    if !e.wanted then Answer(s, false)
    else if |s.replay| == REPLAY_CAPACITY then Ending(s)
    else Answer(s.(replay := s.replay + [e]), false)
  }

  function Replayed(s: State): Answer {
    if s.cancelled && s.replay != [] then Answer(s, true)
    else Answer(s.(delivered := s.delivered + s.replay, replayed := true, replay := []), false)
  }

  /** The first `i` captured events were handed over, and nothing else happened. */
  predicate CalmlyHanded(before: State, now: State, i: nat) {
    && i <= |before.replay| && now == before.(delivered := before.delivered + before.replay[..i])
    && (now.cancelled ==> i == 0)
  }

  lemma CalmlyHandedMeaning(before: State, now: State, i: nat)
    ensures i == 0 ==> CalmlyHanded(before, before, i)
    ensures CalmlyHanded(before, now, i) && i < |now.replay| && !now.cancelled ==>
              CalmlyHanded(before, now.(delivered := now.delivered + [now.replay[i]]), i + 1)
    ensures CalmlyHanded(before, now, i) && now.cancelled && i < |now.replay| ==> Replayed(before) == Answer(now, true)
    ensures CalmlyHanded(before, now, i) && i == |now.replay| ==>
              Replayed(before) == Answer(now.(replayed := true, replay := []), false)
  {
    if CalmlyHanded(before, now, i) && i < |now.replay| {
      assert before.replay[..i] + [before.replay[i]] == before.replay[..i + 1];
      assert before.delivered + before.replay[..i] + [before.replay[i]]
          == before.delivered + (before.replay[..i] + [before.replay[i]]);
    }
    assert before.replay[..0] == [] && before.delivered + [] == before.delivered;
    assert before.replay[..|before.replay|] == before.replay;
  }

  function Resumption(s: State, e: Event): Answer {
    var handed := Replayed(Recording(s.(ready := true, turn := |s.stamped|), e));
    if handed.stop then handed else Answer(WithLive(handed.state, e), false)
  }

  function Dispatched(s: State, e: Event): Answer {
    if !s.hello then Ending(s)
    else if e.kind.Ready? then
      if s.ready || s.resuming || !e.kind.accepted then Ending(s)
      else Answer(WithLive(Recording(Accepting(s, e.kind.sessionID), e), e), false)
    else if e.kind.Resumed? then
      if s.ready || !s.resuming || !s.validated || s.session.None? then Ending(s) else Resumption(s, e)
    else if s.ready then Answer(WithLive(Recording(s, e), e), false)
    else if s.resuming then Captures(Recording(s, e), e)
    else Answer(Recording(s, e), false)
  }

  /** The message ends the session itself. */
  predicate Clears(message: Incoming) {
    message == InvalidSession(false) || message == Broken(4007) || message == Broken(4009)
  }

  function Answered(s: State, message: Incoming): Answer {
    if message.Broken? then Ending(if Clears(message) then Cleared(s) else s)
    else if !Current(s) || s.done then Answer(s, true)
    else
      match message
      case Hello(positive, sent) => Greeting(s, positive, sent)
      case Dispatch(e) => Dispatched(s, e)
      case Heartbeat(sent) => if sent then Answer(s, false) else Ending(s)
      case Reconnect => Ending(s)
      case InvalidSession(_) => Ending(if Clears(message) then Cleared(s) else s)
      case NotEventData => if s.hello then Answer(s, false) else Ending(s)
      case _ => Answer(s, false)
  }

  lemma BrokenAnswer(s: State, code: int)
    ensures Answered(s, Broken(code)) == Ending(if code == 4007 || code == 4009 then Cleared(s) else s)
    ensures Clears(Broken(code)) <==> code == 4007 || code == 4009
  {
  }

  lemma MessageAnswer(s: State, message: Incoming)
    requires Current(s) && !s.done && !message.Broken?
    ensures match message
            case Hello(positive, sent) => Answered(s, message) == Greeting(s, positive, sent)
            case Dispatch(e) => Answered(s, message) == Dispatched(s, e)
            case Heartbeat(sent) => Answered(s, message) == if sent then Answer(s, false) else Ending(s)
            case Reconnect => Answered(s, message) == Ending(s)
            case InvalidSession(resumable) => Answered(s, message) == Ending(if resumable then s else Cleared(s))
            case NotEventData => Answered(s, message) == if s.hello then Answer(s, false) else Ending(s)
            case _ => Answered(s, message) == Answer(s, false)
  {
  }

  /** The messages up to the one that ends the connection. */
  function Heard(s: State, messages: seq<Incoming>): Answer {
    if messages == [] then Answer(s, false)
    else
      var before := Heard(s, messages[..|messages| - 1]);
      if before.stop then before else Answered(before.state, messages[|messages| - 1])
  }

  /** The end of the messages is a read error. */
  function Finished(a: Answer): State {
    var s := if a.stop then a.state else Ending(a.state).state;
    if s.resuming && !s.replayed && s.validated && s.session.Some? then s.(last := s.checkpoint) else s
  }

  lemma Transitive(a: State, b: State, c: State)
    ensures Weathered(a, a)
    ensures Weathered(a, b) && Weathered(b, c) ==> Weathered(a, c)
  {
    if Weathered(a, b) && Weathered(b, c) {
      Chained(a, b, c);
    }
  }

  lemma Chained(a: State, b: State, c: State)
    requires Weathered(a, b) && Weathered(b, c)
    ensures Weathered(a, c)
  {
  }

  lemma Undisturbed(before: State, after: State)
    requires Weathered(before, after)
    ensures Between(before) ==> Between(after)
    ensures Stopped(before) ==> Stopped(after)
    ensures after.base == before.base && after.first == before.first && after.stamped == before.stamped
            && after.hello == before.hello
    ensures after.resuming == before.resuming && after.ready == before.ready && after.replayed == before.replayed
    ensures after.replay == before.replay && after.delivered == before.delivered
            && after.checkpoint == before.checkpoint
    ensures before.done ==> after.done
  {
    hide Wanted, Live;
  }

  /** A connection that is still current is as it was, but for the contexts. */
  lemma StillCurrent(before: State, after: State)
    requires Weathered(before, after) && Current(after)
    ensures after == before.(cancelled := after.cancelled, done := after.done)
    ensures (before.cancelled ==> after.cancelled) && (before.done ==> after.done)
  {
  }

  /** The same within the handling of one event. */
  lemma UndisturbedEvent(before: State, after: State, e: Event, i: nat)
    requires Weathered(before, after)
    ensures Captured(before, e) ==> Captured(after, e)
    ensures Arrived(before) ==> Arrived(after)
    ensures Handing(before, i) ==> Handing(after, i)
    ensures Completing(before) ==> Completing(after)
    ensures Owing(before, e) ==> Owing(after, e)
  {
    hide Wanted, Live;
  }

  lemma WantedMore(events: seq<Event>, e: Event)
    ensures Wanted(events + [e]) == Wanted(events) + if e.wanted then [e] else []
    ensures Live(events + [e]) == Live(events) + if LiveWanted(e) then [e] else []
  {
    assert (events + [e])[..|events|] == events;
  }

  class Listener {
    var active: bool
    var stopping: bool
    var cancelled: bool
    var done: bool
    var session: Option<string>
    var last: Option<int>
    var validated: bool
    var delivered: seq<Event>
    var hello: bool
    var ready: bool
    var resuming: bool
    var replayed: bool
    var checkpoint: Option<int>
    var replay: seq<Event>
    var script: seq<Gust>
    ghost var base: seq<Event>
    ghost var first: Option<int>
    ghost var stamped: seq<Event>
    ghost var turn: nat

    ghost function Now(): State
      reads this
    {
      State(active, stopping, cancelled, done, session, last, validated, delivered,
            hello, ready, resuming, replayed, checkpoint, replay, base, first, stamped, turn)
    }

    /** clearSessionLocked */
    method ClearSession()
      modifies this`session, this`last, this`validated
      ensures Now() == Cleared(old(Now()))
    {
      session, last, validated := None, None, false;
    }

    /** Ending the gateway's context ends the connection's. */
    method EndContext()
      modifies this`cancelled, this`done
      ensures cancelled && done
    {
      cancelled := true;
      done := true;
    }

    /** Close */
    method Shut()
      modifies this`stopping, this`cancelled, this`done, this`session, this`last, this`validated
      ensures Now() == Struck(old(Now()), Closed)
    {
      stopping := true;
      EndContext();
      ClearSession();
    }

    method Strike(gust: Gust)
      modifies this`active, this`stopping, this`cancelled, this`done, this`session, this`last, this`validated
      ensures Now() == Struck(old(Now()), gust)
    {
      match gust
      case Lost => active := false;
      case Closed => Shut();
      case Cancelled => EndContext();
      case Done => done := true;
      case Calm =>
    }

    /** Other goroutines get their turn: any number of them, up to the next Calm. */
    method Blow()
      modifies this`script, this`active, this`stopping, this`cancelled, this`done, this`session, this`last,
        this`validated
      ensures (Now(), script) == Blown(old(Now()), old(script))
      ensures Weathered(old(Now()), Now())
      ensures Calmly(old(script)) ==> Now() == old(Now()) && Calmly(script)
      ensures Closes(script) ==> Closes(old(script))
      ensures old(session).Some? && session.None? ==> Closes(old(script))
    {
      hide Closes, Weathered, Struck;
      BlownWeathered(Now(), script);
      OnlyCloseClears(Now(), script);
      if Calmly(script) {
        CalmTurn(Now(), script);
      }
      while script != []
        invariant Blown(Now(), script) == Blown(old(Now()), old(script))
        decreases |script|
      {
        var gust := script[0];
        script := script[1..];
        if gust.Calm? {
          return;
        }
        Strike(gust);
      }
    }

    /** report: the first result ends the connection. */
    method Report()
      modifies this`active
      ensures Now() == old(Now()).(active := false)
    {
      active := false;
    }

    method OnHello(positive: bool, sent: bool) returns (stop: bool)
      requires Between(Now())
      modifies this
      ensures base == old(base) && first == old(first) && if stop then Stopped(Now()) else Between(Now())
      ensures !old(hello) && old(session).None? && positive && sent ==>
                !stop && (Now(), script) == Twice(old(Now()).(hello := true), old(script))
      ensures Calmly(old(script)) ==> Answer(Now(), stop) == Greeting(old(Now()), positive, sent) && Calmly(script)
      ensures Closes(script) ==> Closes(old(script))
      ensures old(session).Some? && session.None? ==> Closes(old(script))
    {
      hide Closes, Wanted, Live, Between, Stopped, Twice, Calmly, Announced;
      if hello {
        MayStop(Now());
        Report();
        return true;
      }
      if positive {
        stop := Greet(sent);
      } else {
        Greeted(Now());
        hello := true;
        MayStop(Now());
        Report();
        stop := true;
      }
    }

    /** RESUME or IDENTIFY is sent. */
    method Greet(sent: bool) returns (stop: bool)
      requires Between(Now()) && !hello
      modifies this
      ensures base == old(base) && first == old(first) && if stop then Stopped(Now()) else Between(Now())
      ensures stop == !sent
      ensures old(session).None? && sent ==> (Now(), script) == Twice(old(Now()).(hello := true), old(script))
      ensures Calmly(old(script)) ==> Answer(Now(), stop) == Greeting(old(Now()), true, sent) && Calmly(script)
      ensures Closes(script) ==> Closes(old(script))
      ensures old(session).Some? && session.None? ==> Closes(old(script))
    {
      hide Closes, Wanted, Live, Between, Stopped, Twice, Calmly, Announced;
      Greeted(Now());
      hello := true;
      Announce();
      if !sent {
        Report();
      }
      return !sent;
    }

    /** Resume if there is a session and a number to resume from. */
    method Announce()
      requires Between(Now()) && hello && stamped == [] && !ready && !resuming && replay == []
      modifies this
      ensures base == old(base) && first == old(first) && Between(Now()) && Stopped(Now().(active := false))
      ensures old(session).None? ==> (Now(), script) == Twice(old(Now()), old(script))
      ensures Calmly(old(script)) ==> Now() == Announced(old(Now())) && Calmly(script)
      ensures Closes(script) ==> Closes(old(script))
      ensures old(session).Some? && session.None? ==> Closes(old(script))
    {
      hide Closes, Wanted, Live, Between, Stopped, Weathered, Blown, Calmly;
      ghost var greeted := Now();
      Blow();
      Undisturbed(greeted, Now());
      NoNewSession(greeted, Now());
      if session.Some? && last.Some? {
        Resuming(Now());
        resuming := true;
        checkpoint := last;
      }
      ghost var announced := Now();
      Blow();
      Undisturbed(announced, Now());
      MayStop(Now());
    }

    /** The locked region that records a sequence number. */
    method Stamp(e: Event) returns (ok: bool)
      modifies this
      ensures var (there, rest) := Blown(old(Now()), old(script));
              && ok == Current(there) && Now() == (if ok then Recording(there, e) else there) && script == rest
      ensures !ok ==> Weathered(old(Now()), Now())
      ensures ok ==>
                && Current(Now()) && (old(cancelled) ==> cancelled) && (old(done) ==> done)
                && Now() == old(Now()).(cancelled := cancelled, done := done, last := Some(e.sequence),
                                        stamped := old(stamped) + [e])
      ensures Calmly(old(script)) ==> Calmly(script) && ok == Current(old(Now()))
      ensures Calmly(old(script)) && ok ==> Now() == Recording(old(Now()), e)
      ensures Closes(script) ==> Closes(old(script))
      ensures old(session).Some? && session.None? ==> Closes(old(script))
    {
      hide Closes, Blown, Weathered, Calmly;
      Blow();
      if stopping || !active {
        return false;
      }
      StillCurrent(old(Now()), Now());
      last, stamped := Some(e.sequence), stamped + [e];
      return true;
    }

    /** A replayed event is captured when it is received. */
    method Capture(e: Event) returns (stop: bool)
      requires Captured(Now(), e)
      modifies this
      ensures base == old(base) && first == old(first) && if stop then Stopped(Now()) else Between(Now())
      ensures Calmly(old(script)) && Current(old(Now())) ==>
                Answer(Now(), stop) == Captures(old(Now()), e) && Calmly(script)
      ensures Closes(script) ==> Closes(old(script))
      ensures old(session).Some? && session.None? ==> Closes(old(script))
    {
      hide Closes, Wanted, Live, Captured, Between, Stopped, Arrived, Handing, Completing, Owing, Calmly;
      ghost var before := Now();
      Blow();
      UndisturbedEvent(before, Now(), e, 0);
      CapturedMeaning(Now(), e);
      if active && !stopping && e.wanted {
        if |replay| == REPLAY_CAPACITY {
          Report();
          return true;
        }
        replay := replay + [e];
      }
      return false;
    }

    /** One captured event goes out, unless the gateway's context has ended. */
    method HandOver(i: nat) returns (stop: bool)
      requires Handing(Now(), i) && i < |replay|
      modifies this
      ensures base == old(base) && first == old(first) && stamped == old(stamped) && replay == old(replay)
      ensures if stop then Stopped(Now()) else Handing(Now(), i + 1)
      ensures Calmly(old(script)) ==>
                && Calmly(script) && stop == old(cancelled)
                && Now() == if stop then old(Now()) else old(Now()).(delivered := old(delivered) + [replay[i]])
      ensures Closes(script) ==> Closes(old(script))
      ensures old(session).Some? && session.None? ==> Closes(old(script))
    {
      hide Closes, Wanted, Live, Handing, Stopped, Owing, Captured, Arrived, Completing, Calmly, Blown;
      Blow();
      UndisturbedEvent(old(Now()), Now(), replay[i], i);
      HandingMeaning(Now(), i);
      if cancelled {
        return true;
      }
      delivered := delivered + [replay[i]];
      return false;
    }

    /** Hand over the captured events, then the replay is done. */
    method Replay() returns (stop: bool)
      requires Handing(Now(), 0)
      modifies this
      ensures base == old(base) && first == old(first)
      ensures if stop then Stopped(Now()) else stamped == old(stamped) != [] && Owing(Now(), stamped[|stamped| - 1])
      ensures Calmly(old(script)) ==> Answer(Now(), stop) == Replayed(old(Now())) && Calmly(script)
      ensures Closes(script) ==> Closes(old(script))
      ensures old(session).Some? && session.None? ==> Closes(old(script))
    {
      hide Closes, Wanted, Live, Handing, Stopped, Owing, Captured, Arrived, Completing, Calmly, Weathered, Blown,
           Replayed,
           CalmlyHanded;
      var i := 0;
      HandingMeaning(Now(), i);
      CalmlyHandedMeaning(Now(), Now(), i);
      while i < |replay|
        invariant 0 <= i <= |replay| && base == old(base) && first == old(first) && stamped == old(stamped)
                  && Handing(Now(), i)
        invariant Calmly(old(script)) ==> Calmly(script) && CalmlyHanded(old(Now()), Now(), i)
        invariant Closes(script) ==> Closes(old(script))
        invariant old(session).Some? && session.None? ==> Closes(old(script))
      {
        CalmlyHandedMeaning(old(Now()), Now(), i);
        stop := HandOver(i);
        if stop {
          return;
        }
        i := i + 1;
      }
      HandingMeaning(Now(), i);
      ReplayDone(Now());
      CalmlyHandedMeaning(old(Now()), Now(), i);
      replayed, replay := true, [];
      return false;
    }

    /** dispatch: captured and delivered at once. */
    method Handle(e: Event)
      requires Owing(Now(), e)
      modifies this
      ensures Now() == Handled(old(Now()), old(script), e) && script == HandledScript(old(Now()), old(script))
      ensures base == old(base) && first == old(first) && Between(Now())
      ensures Calmly(old(script)) ==> Calmly(script)
      ensures Calmly(old(script)) && old(ready) && !old(done) && Current(old(Now())) ==>
                Now() == WithLive(old(Now()), e)
      ensures Calmly(old(script)) && !old(ready) ==> Now() == old(Now())
      ensures Closes(script) ==> Closes(old(script))
      ensures old(session).Some? && session.None? ==> Closes(old(script))
    {
      hide Closes, Weathered, Wanted, Live, Blown, Owing, Between, Calmly;
      HandledKeeps(Now(), script, e);
      Blow();
      if ready && !done {
        Blow();
        if active && !stopping && e.wanted && !e.kind.Unrecognized? {
          delivered := delivered + [e];
        }
      }
    }

    /** A READY, accepted on a connection that identified itself. */
    method AcceptReady(e: Event) returns (stop: bool)
      requires e.kind.Ready? && Between(Now()) && hello
      modifies this
      ensures base == old(base) && first == old(first) && if stop then Stopped(Now()) else !resuming && Arrived(Now())
      ensures !old(ready) && !old(resuming) && e.kind.accepted ==>
                var (there, rest) := Blown(old(Now()), old(script));
                && stop == !Current(there) && script == rest
                && Now() == if stop then there else Accepting(there, e.kind.sessionID)
      ensures Calmly(old(script)) && Current(old(Now())) ==>
                && Calmly(script)
                && Answer(Now(), stop)
                   == if old(ready) || old(resuming) || !e.kind.accepted then Ending(old(Now()))
                      else Answer(Accepting(old(Now()), e.kind.sessionID), false)
      ensures Closes(script) ==> Closes(old(script))
      ensures old(session).Some? && session.None? ==> Closes(old(script))
    {
      hide Closes, Wanted, Live, Between, Stopped, Arrived, Blown, Weathered, Calmly;
      ghost var before := Now();
      MayStop(before);
      if ready || resuming {
        Report();
        return true;
      }
      if !e.kind.accepted {
        Report();
        return true;
      }
      Blow();
      Undisturbed(before, Now());
      MayStop(Now());
      if stopping || !active {
        return true;
      }
      ReadyArrives(Now(), e.kind.sessionID);
      validated, session, ready, turn := true, Some(e.kind.sessionID), true, |stamped|;
      return false;
    }

    /** A valid READY or RESUMED: record it, deliver the replay, then the event itself. */
    method Complete(e: Event) returns (stop: bool)
      requires Arrived(Now()) && if resuming then e.kind.Resumed? else e.kind.Ready?
      modifies this
      ensures base == old(base) && first == old(first) && if stop then Stopped(Now()) else Between(Now())
      ensures e.kind.Ready? ==> Outcome(Now(), script, stop) == Completed(old(Now()), old(script), e)
      ensures Calmly(old(script)) && Current(old(Now())) && !old(done) ==>
                && Calmly(script)
                && Answer(Now(), stop)
                   == if e.kind.Ready? then Answer(WithLive(Recording(old(Now()), e), e), false)
                      else
                        var handed := Replayed(Recording(old(Now()), e));
                        if handed.stop then handed else Answer(WithLive(handed.state, e), false)
      ensures Closes(script) ==> Closes(old(script))
      ensures old(session).Some? && session.None? ==> Closes(old(script))
    {
      hide Closes, Wanted, Live, Arrived, Handing, Completing, Captured, Stopped, Owing, Between, Blown, Handled,
           HandledScript, Weathered, Calmly;
      ghost var before := Now();
      var ok := Stamp(e);
      if !ok {
        Undisturbed(before, Now());
        UndisturbedEvent(before, Now(), e, 0);
        ArrivedMeaning(Now(), e, cancelled, done);
        return true;
      }
      ArrivedMeaning(before, e, cancelled, done);
      ghost var recorded := Now();
      Blow();
      Undisturbed(recorded, Now());
      UndisturbedEvent(recorded, Now(), e, 0);
      CompletingMeaning(Now());
      if stopping || !active {
        return true;
      }
      stop := false;
      if e.kind.Resumed? {
        stop := Replay();
        if stop {
          return;
        }
      }
      Handle(e);
    }

    method OnDispatch(e: Event) returns (stop: bool)
      requires Between(Now()) && (ready ==> DeliveredUpTo(Now(), |stamped|))
      modifies this
      ensures base == old(base) && first == old(first) && if stop then Stopped(Now()) else Between(Now())
      ensures old(hello) && e.kind.Ready? && e.kind.accepted && !old(ready) && !old(resuming) ==>
                var (there, rest) := Blown(old(Now()), old(script));
                Outcome(Now(), script, stop) == ReadyTaken(there, rest, e.kind.sessionID, e)
      ensures old(hello) && e.kind.Plain? && old(ready) ==>
                var (there, rest) := Blown(old(Now()), old(script));
                Outcome(Now(), script, stop) == Lived(there, rest, e)
      ensures Calmly(old(script)) && Current(old(Now())) && !old(done) ==>
                Answer(Now(), stop) == Dispatched(old(Now()), e) && Calmly(script)
      ensures Closes(script) ==> Closes(old(script))
      ensures old(session).Some? && session.None? ==> Closes(old(script))
    {
      hide Closes, Wanted, Live, Between, Stopped, Arrived, Owing, Captured, Handing, Completing, DeliveredUpTo,
           Blown, Lived,
           Completed, Weathered, Calmly, Captures, Replayed;
      ghost var before := Now();
      MayStop(before);
      if !hello {
        Report();
        return true;
      }
      Blow();
      Undisturbed(before, Now());
      MayStop(Now());
      if ready {
        StillDelivered(before, Now());
      }
      if e.kind.Ready? {
        stop := AcceptReady(e);
        if !stop {
          stop := Complete(e);
        }
        return;
      } else if e.kind.Resumed? {
        if ready || !resuming || !validated || session.None? {
          Report();
          return true;
        }
        ready := true;
        turn := |stamped|;
        stop := Complete(e);
        return;
      }
      stop := OnEvent(e);
    }

    /** Any other event: its number is recorded first. */
    method OnEvent(e: Event) returns (stop: bool)
      requires Between(Now()) && (ready ==> DeliveredUpTo(Now(), |stamped|))
      requires hello && !e.kind.Ready? && !e.kind.Resumed?
      modifies this
      ensures base == old(base) && first == old(first) && if stop then Stopped(Now()) else Between(Now())
      ensures old(ready) ==> Outcome(Now(), script, stop) == Lived(old(Now()), old(script), e)
      ensures Calmly(old(script)) && Current(old(Now())) && !old(done) ==>
                && Calmly(script)
                && Answer(Now(), stop)
                   == if old(ready) then Answer(WithLive(Recording(old(Now()), e), e), false)
                      else if old(resuming) then Captures(Recording(old(Now()), e), e)
                      else Answer(Recording(old(Now()), e), false)
      ensures Closes(script) ==> Closes(old(script))
      ensures old(session).Some? && session.None? ==> Closes(old(script))
    {
      hide Closes, Wanted, Live, Between, Stopped, Arrived, Owing, Captured, Handing, Completing, DeliveredUpTo, Blown,
           Handled, HandledScript, Weathered, Calmly, Captures;
      ghost var admitted := Now();
      var ok := Stamp(e);
      if !ok {
        Undisturbed(admitted, Now());
        MayStop(Now());
        return true;
      }
      StampedState(admitted, Now(), e);
      if resuming && !ready {
        stop := Capture(e);
        return;
      }
      Handle(e);
      return false;
    }

    /** A message on a connection that is still current. */
    method OnMessage(message: Incoming) returns (stop: bool)
      requires Between(Now()) && (ready ==> DeliveredUpTo(Now(), |stamped|))
      modifies this
      ensures base == old(base) && first == old(first) && if stop then Stopped(Now()) else Between(Now())
      ensures Calmly(old(script)) && Current(old(Now())) && !old(done) && !message.Broken? ==>
                Answer(Now(), stop) == Answered(old(Now()), message) && Calmly(script)
      ensures Closes(script) ==> Closes(old(script))
      ensures old(session).Some? && session.None? ==> Closes(old(script)) || Clears(message)
    {
      hide Closes, Clears, Wanted, Live, Between, Stopped, DeliveredUpTo, Blown, Calmly, Greeting, Dispatched, Answered;
      MayStop(Now());
      if Current(Now()) && !done && !message.Broken? {
        MessageAnswer(Now(), message);
      }
      match message
      case Hello(positive, sent) => stop := OnHello(positive, sent);
      case Dispatch(e) => stop := OnDispatch(e);
      case _ => stop := OnControl(message);
    }

    /** Everything but HELLO and dispatches. */
    method OnControl(message: Incoming) returns (stop: bool)
      requires Between(Now())
      modifies this`active, this`session, this`last, this`validated
      ensures if stop then Stopped(Now()) else Between(Now())
      ensures Current(old(Now())) && !done && !message.Broken? && !message.Hello? && !message.Dispatch? ==>
                Answer(Now(), stop) == Answered(old(Now()), message)
      ensures old(session).Some? && session.None? ==> Clears(message)
    {
      hide Wanted, Live, Between, Stopped, Greeting, Dispatched, Answered;
      ghost var start := Now();
      MayStop(start);
      if Current(Now()) && !done && !message.Broken? {
        MessageAnswer(Now(), message);
      }
      match message {
        case Heartbeat(sent) => stop := !sent;
        case Reconnect => stop := true;
        case InvalidSession(resumable) =>
          if !resumable {
            ClearSession();
          }
          stop := true;
        case NotEventData => stop := !hello;
        case _ => stop := false;
      }
      assert Now() == if message == InvalidSession(false) then Cleared(start) else start;
      if stop {
        Report();
      }
    }

    /** A read error; two close codes end the session. */
    method OnBroken(code: int)
      requires Between(Now())
      modifies this
      ensures base == old(base) && first == old(first) && Stopped(Now())
      ensures Answer(Now(), true) == Answered(old(Now()), Broken(code)) && script == old(script)
      ensures Closes(script) ==> Closes(old(script))
      ensures old(session).Some? && session.None? ==> Closes(old(script)) || Clears(Broken(code))
    {
      hide Closes, Clears, Wanted, Live, Between, Stopped, Answered;
      MayStop(Now());
      BrokenAnswer(Now(), code);
      if code == 4007 || code == 4009 {
        ClearSession();
      }
      Report();
    }

    /** One receive. */
    method Receive(message: Incoming) returns (stop: bool)
      requires Between(Now())
      modifies this
      ensures base == old(base) && first == old(first) && if stop then Stopped(Now()) else Between(Now())
      ensures Calmly(old(script)) ==> Answer(Now(), stop) == Answered(old(Now()), message) && Calmly(script)
      ensures message.Broken? ==> stop
      ensures Closes(script) ==> Closes(old(script))
      ensures old(session).Some? && session.None? ==> Closes(old(script)) || Clears(message)
    {
      hide Closes, Clears, Wanted, Live, Between, Stopped, DeliveredUpTo, Weathered, Blown, Calmly, Greeting,
           Dispatched;
      ghost var before := Now();
      Blow();
      Undisturbed(before, Now());
      MayStop(Now());
      if message.Broken? {
        OnBroken(message.code);
        return true;
      }
      var current := active && !stopping;
      ghost var checked := Now();
      Blow();
      Undisturbed(checked, Now());
      MayStop(Now());
      if !current || done {
        return true;
      }
      if ready {
        Promptly(checked);
        StillDelivered(checked, Now());
      }
      stop := OnMessage(message);
    }

    /** The deferred end of listen. */
    method Restore()
      requires Stopped(Now())
      modifies this
      ensures base == old(base) && first == old(first) && Settled(Now())
      ensures !old(resuming) ==> Now() == old(Now())
      ensures Calmly(old(script)) ==> Now() == Finished(Answer(old(Now()), true))
      ensures Closes(script) ==> Closes(old(script))
      ensures old(session).Some? && session.None? ==> Closes(old(script))
    {
      hide Closes, Wanted, Live, Blown, Calmly;
      if resuming && !replayed {
        ghost var before := Now();
        Blow();
        Undisturbed(before, Now());
        if validated && session.Some? {
          last := checkpoint;
        }
      }
    }

    /** A new listener, on whatever the gateway holds. */
    ghost predicate Unstarted()
      reads this
    {
      !hello && !ready && !resuming && !replayed && replay == [] && stamped == [] && turn == 0 && base == delivered
        && first == last
    }

    /** listen: whatever arrives, wherever it ends and whatever happens meanwhile. */
    method Listen(messages: seq<Incoming>)
      requires Unstarted()
      modifies this
      ensures base == old(delivered) && first == old(last) && Settled(Now())
      ensures Calmly(old(script)) ==> Now() == Finished(Heard(old(Now()), messages))
      ensures Closes(script) ==> Closes(old(script))
      ensures old(session).Some? && session.None? ==> Closes(old(script)) || exists m <- messages :: Clears(m)
    {
      hide Closes, Clears, Wanted, Live, Between, Stopped, Settled, Answered, Calmly, Weathered;
      UnstartedBetween(Now());
      var i := 0;
      var stop := false;
      while i < |messages| && !stop
        invariant 0 <= i <= |messages| && (Closes(script) ==> Closes(old(script)))
        invariant old(session).Some? && session.None? ==> Closes(old(script)) || exists m <- messages :: Clears(m)
        invariant base == old(base) && first == old(first) && if stop then Stopped(Now()) else Between(Now())
        invariant Calmly(old(script)) ==> Calmly(script) && Answer(Now(), stop) == Heard(old(Now()), messages[..i])
      {
        HeardNext(old(Now()), messages, i);
        stop := Receive(messages[i]);
        i := i + 1;
      }
      if Calmly(old(script)) {
        HeardAll(old(Now()), messages, i);
      }
      if !stop {
        BrokenAnswer(Now(), 0);
        stop := Receive(Broken(0));
      }
      Restore();
    }
  }

  lemma HeardNext(s: State, messages: seq<Incoming>, i: nat)
    requires i < |messages|
    ensures var before := Heard(s, messages[..i]);
            Heard(s, messages[..i + 1]) == if before.stop then before else Answered(before.state, messages[i])
  {
    hide Answered;
    assert messages[..i + 1][..i] == messages[..i];
  }

  /** Messages after the end are not read; a read error ends what is still going on. */
  lemma {:induction false} HeardAll(s: State, messages: seq<Incoming>, i: nat)
    requires i <= |messages| && (Heard(s, messages[..i]).stop || i == |messages|)
    ensures Heard(s, messages) == Heard(s, messages[..i])
    decreases |messages| - i
  {
    if i < |messages| {
      HeardNext(s, messages, i);
      HeardAll(s, messages, i + 1);
    } else {
      assert messages[..i] == messages;
    }
  }

  lemma HandledKeeps(s: State, script: seq<Gust>, e: Event)
    requires Owing(s, e)
    ensures var after := Handled(s, script, e);
            && Between(after) && after.base == s.base && after.first == s.first && after.stamped == s.stamped
  {
    hide Wanted, Live, Blown;
    BlownWeathered(s, script);
    BlownWeathered(Blown(s, script).0, Blown(s, script).1);
    if s.ready {
      LiveMore(s.stamped, s.turn, e);
    }
  }

  /** A live event is missing exactly if it was wanted and, after its number was
      recorded, the connection's context ended or the connection was given up
      before it was handed over. */
  lemma MissingExactly(s: State, script: seq<Gust>, e: Event)
    requires Owing(s, e) && s.ready
    ensures var (there, rest) := Blown(s, script);
            DeliveredUpTo(Handled(s, script, e), |s.stamped|) <==>
            !LiveWanted(e) || (!there.done && Current(Blown(there, rest).0))
  {
    hide Wanted, Live, Blown;
    HandledKeeps(s, script, e);
    BlownWeathered(s, script);
    BlownWeathered(Blown(s, script).0, Blown(s, script).1);
    LiveMore(s.stamped, s.turn, e);
    var lead := s.base + (if s.resuming then Wanted(s.stamped[..s.turn])
                          else []) + Live(s.stamped[s.turn..|s.stamped| - 1]);
    assert s.delivered == lead;
    assert lead + [e] != lead by {
      assert |lead + [e]| == |lead| + 1;
    }
  }

  /** So the gateway can skip any live event for good: if the heartbeat gives the connection
      up once the event's number is recorded, the event is never handed over, and the next
      RESUME asks only for what follows it. */
  lemma LiveEventIsSkipped(s: State, e: Event)
    requires Owing(s, e) && s.ready && Current(s) && !s.done && LiveWanted(e)
    ensures var after := Handled(s, [Lost], e);
            && after == s.(active := false) && after.last == Some(e.sequence)
            && !DeliveredUpTo(after, |after.stamped|)
  {
    hide Wanted, Live, DeliveredUpTo;
    LostTurn(s);
    MissingExactly(s, [Lost], e);
  }

  lemma LostTurn(s: State)
    ensures Blown(s, [Lost]) == (s.(active := false), []) && Blown(s.(active := false), []) == (s.(active := false), [])
  {
    assert [Lost][1..] == [];
  }

  /** An accepted READY while nothing happens elsewhere. */
  lemma QuietReady(s: State, script: seq<Gust>, id: string, e: Event)
    requires Quiet(script, 6) && Current(s) && !s.done
    ensures var (there, rest) := Blown(s, script);
            ReadyTaken(there, rest, id, e) == Outcome(WithLive(Recording(Accepting(s, id), e), e), script[6..], false)
  {
    hide Quiet, Blown;
    var ready := Accepting(s, id);
    var recorded := Recording(ready, e);
    QuietAfter(script, 1, 5);
    QuietAfter(script, 2, 4);
    QuietAfter(script, 3, 3);
    QuietAfter(script, 4, 2);
    QuietAfter(script, 5, 1);
    QuietFirst(script[1..], 5);
    QuietFirst(script[2..], 4);
    QuietFirst(script[3..], 3);
    QuietFirst(script[4..], 2);
    QuietFirst(script, 6);
    QuietTurn(s, script);
    QuietTurn(s, script[1..]);
    QuietTurn(ready, script[2..]);
    QuietTurn(recorded, script[3..]);
    QuietTurn(recorded, script[4..]);
    QuietTurn(recorded, script[5..]);
    assert script[1..][1..] == script[2..] && script[2..][1..] == script[3..] && script[3..][1..] == script[4..]
           && script[4..][1..] == script[5..] && script[5..][1..] == script[6..];
  }

  lemma QuietFirst(script: seq<Gust>, k: nat)
    requires Quiet(script, k) && k > 0
    ensures Quiet(script, 1)
  {
  }

  /** A live event whose connection is lost as soon as it is recorded. */
  lemma LostLive(s: State, e: Event)
    requires s.ready && Current(s) && !s.done
    ensures var (there, rest) := Blown(s, [Calm, Calm, Lost]);
            Lived(there, rest, e) == Outcome(Recording(s, e).(active := false), [], false)
  {
    QuietTurn(s, [Calm, Calm, Lost]);
    QuietTurn(s, [Calm, Lost]);
    assert [Calm, Calm, Lost][1..] == [Calm, Lost] && [Calm, Lost][1..] == [Lost];
    LostTurn(Recording(s, e));
    hide Blown;
  }

  lemma ReadyDelivered(s: State, e: Event)
    requires s.ready && s.turn == 0 && s.stamped == [e] && e.kind.Ready? && !s.resuming && !s.replayed
    requires s.delivered == s.base + if LiveWanted(e) then [e] else []
    ensures DeliveredUpTo(s, 1)
  {
    WantedMore([], e);
    assert [] + [e] == [e] && s.stamped[0..1] == [e];
  }

  /** A new connection on which this happens: HELLO, an accepted READY, then an event whose
      number is recorded just before the heartbeat gives up. The session stays valid, the
      number is remembered, and the event was not delivered. */
  method LoseEvent(l: Listener, id: string, ready: Event, e: Event)
    requires l.Unstarted() && Current(l.Now()) && !l.done && l.session.None?
    requires ready.kind == Ready(id, true) && e.kind.Plain? && e.wanted
    requires l.script == [Calm, Calm, Calm, Calm, Calm, Calm, Calm, Calm, Calm, Calm, Lost]
    modifies l
    ensures l.session == Some(id) && l.validated && l.last == Some(e.sequence)
    ensures l.stamped == [ready, e] && l.delivered == old(l.delivered) + if ready.wanted then [ready] else []
  {
    hide Between, Stopped, Blown, Lived, ReadyTaken, DeliveredUpTo, Settled;
    ghost var start, script := l.Now(), l.script;
    assert Quiet(script, 2) && Quiet(script[2..], 6) && script[2..][6..] == [Calm, Calm, Lost];
    UnstartedBetween(start);
    var stop := l.OnHello(true, true);
    ghost var greeted := l.Now();
    QuietTwice(start.(hello := true), script);
    QuietReady(greeted, script[2..], id, ready);
    stop := l.OnDispatch(ready);
    ghost var accepted := l.Now();
    ReadyDelivered(accepted, ready);
    LostLive(accepted, e);
    stop := l.OnDispatch(e);
    MayStop(l.Now());
    l.Restore();
  }

  lemma UnstartedBetween(s: State)
    requires !s.hello && !s.ready && !s.resuming && !s.replayed && s.replay == [] && s.stamped == [] && s.turn == 0
             && s.base == s.delivered && s.first == s.last
    ensures Between(s)
  {
  }

  lemma HandingMeaning(s: State, i: nat)
    requires Handing(s, i)
    ensures s.cancelled ==> Stopped(s)
    ensures s.stamped != []
    ensures i < |s.replay| ==> Handing(s.(delivered := s.delivered + [s.replay[i]]), i + 1)
  {
    hide Wanted, Live;
    assert s.delivered[|s.base|..] == s.replay[..i];
    if i < |s.replay| {
      assert s.replay[..i] + [s.replay[i]] == s.replay[..i + 1];
    }
  }

  lemma ReplayDone(s: State)
    requires Handing(s, |s.replay|)
    ensures Owing(s.(replayed := true, replay := []), s.stamped[|s.stamped| - 1])
  {
    hide Wanted, Live;
    NothingLive(s.stamped, s.turn);
    assert s.replay[..|s.replay|] == s.replay;
    assert s.base + s.replay + [] == s.base + s.replay;
  }

  /** The loop may stop between two messages, also with the connection given up or
      the session cleared; and RESUMED may arrive only while gathering. */
  lemma MayStop(s: State)
    requires Between(s)
    ensures Stopped(s) && Stopped(s.(active := false))
    ensures Stopped(s.(session := None, last := None, validated := false, active := false))
    ensures s.resuming && !s.ready ==> Arrived(s.(ready := true, turn := |s.stamped|))
  {
    hide Wanted, Live;
  }

  lemma ArrivedMeaning(s: State, e: Event, cancelled: bool, done: bool)
    requires Arrived(s) && if s.resuming then e.kind.Resumed? else e.kind.Ready?
    ensures Stopped(s) && s.ready
    ensures Completing(s.(cancelled := cancelled, done := done, last := Some(e.sequence), stamped := s.stamped + [e]))
  {
    hide Wanted, Live;
    assert (s.stamped + [e])[..|s.stamped|] == s.stamped == s.stamped[..|s.stamped|];
  }

  lemma Greeted(s: State)
    requires Between(s) && !s.hello
    ensures Between(s.(hello := true)) && s.stamped == [] && !s.ready && !s.resuming && s.replay == []
  {
    hide Wanted, Live;
  }

  lemma Resuming(s: State)
    requires Between(s) && s.hello && s.stamped == [] && !s.ready && !s.resuming && s.replay == [] && s.session.Some?
             && s.last.Some?
    ensures Between(s.(resuming := true, checkpoint := s.last))
  {
    hide Live;
  }

  lemma ReadyArrives(s: State, id: string)
    requires Between(s) && s.hello && !s.ready && !s.resuming && Current(s)
    ensures Arrived(s.(validated := true, session := Some(id), ready := true, turn := |s.stamped|))
  {
    hide Wanted, Live;
  }

  lemma CompletingMeaning(s: State)
    requires Completing(s)
    ensures Stopped(s)
    ensures Current(s) && s.resuming ==> Handing(s, 0)
    ensures !s.resuming ==> Owing(s, s.stamped[|s.stamped| - 1])
  {
    hide Wanted, Live;
    NothingLive(s.stamped, s.turn);
  }

  lemma CapturedMeaning(s: State, e: Event)
    requires Captured(s, e)
    ensures Current(s) && e.wanted && |s.replay| < REPLAY_CAPACITY ==> Between(s.(replay := s.replay + [e]))
    ensures !(Current(s) && e.wanted) ==> Between(s)
    ensures Stopped(s.(active := false)) && |s.replay| <= REPLAY_CAPACITY
  {
    hide Wanted, Live;
    WantedMore(s.stamped[..|s.stamped| - 1], e);
    assert s.stamped[..|s.stamped| - 1] + [e] == s.stamped == s.stamped[..|s.stamped|];
  }

  lemma StillDelivered(before: State, after: State)
    requires Weathered(before, after) && DeliveredUpTo(before, |before.stamped|)
    ensures DeliveredUpTo(after, |after.stamped|)
  {
  }

  lemma Promptly(s: State)
    requires Between(s) && s.ready && Current(s) && !s.done
    ensures DeliveredUpTo(s, |s.stamped|)
  {
  }

  lemma NothingLive(events: seq<Event>, turn: nat)
    requires turn <= |events|
    ensures Live(events[turn..turn]) == []
  {
  }

  lemma LiveMore(events: seq<Event>, turn: nat, e: Event)
    requires turn < |events| && events[|events| - 1] == e
    ensures Live(events[turn..]) == Live(events[turn..|events| - 1]) + if LiveWanted(e) then [e] else []
    ensures events[turn..|events|] == events[turn..]
  {
    WantedMore(events[turn..|events| - 1], e);
    assert events[turn..|events| - 1] + [e] == events[turn..];
  }

  /** The state right after an event's number was recorded. */
  lemma StampedState(before: State, after: State, e: Event)
    requires Between(before) && before.hello && (before.ready ==> DeliveredUpTo(before, |before.stamped|))
    requires Current(after) && !e.kind.Resumed? && !e.kind.Ready?
    requires (before.cancelled ==> after.cancelled) && (before.done ==> after.done)
    requires after == before.(cancelled := after.cancelled, done := after.done, last := Some(e.sequence),
                              stamped := before.stamped + [e])
    ensures if before.resuming && !before.ready then Captured(after, e) else Owing(after, e)
  {
    hide Wanted, Live;
    var n := |before.stamped|;
    assert after.stamped[..n] == before.stamped == before.stamped[..n];
    if before.ready {
      assert after.stamped[..before.turn] == before.stamped[..before.turn];
      assert after.stamped[before.turn..n] == before.stamped[before.turn..n];
    }
  }

  // Several connections

  /** What a finished connection added for good. */
  function Added(s: State, m: nat): seq<Event>
    requires s.turn <= m <= |s.stamped|
  {
    (if s.resuming then Wanted(s.stamped[..s.turn]) else []) + Live(s.stamped[s.turn..m])
  }

  /** Connections that resumed one validated session one after the other: each
      starts from what the one before left, and none was the gateway's last. */
  ghost predicate Linked(conns: seq<State>, base: seq<Event>, first: Option<int>)
    decreases |conns|
  {
    conns == [] ||
    (var c := conns[0];
     && Settled(c) && c.resuming && c.validated && c.session.Some? && !c.cancelled
     && c.base == base && c.first == first
     && Linked(conns[1..], c.delivered, c.last))
  }

  /** The last event was lost between recording its number and handing it over. */
  predicate Loses(c: State) {
    c.replayed && !DeliveredUpTo(c, |c.stamped|)
  }

  /** What the connections that reached RESUMED delivered. */
  function HandedOver(conns: seq<State>): seq<Event> {
    if conns == [] then []
    else
      var c := conns[0];
      (if c.replayed && c.turn <= |c.stamped| then Added(c, |c.stamped|) else []) + HandedOver(conns[1..])
  }

  /** Where the next RESUME continues: behind the last event of the last connection
      that reached RESUMED. */
  function Continues(conns: seq<State>, first: Option<int>): Option<int>
    decreases |conns|
  {
    if conns == [] then first
    else
      var c := conns[0];
      Continues(conns[1..], if c.replayed && c.stamped != [] then Some(c.stamped[|c.stamped| - 1].sequence) else first)
  }

  lemma OneConnection(c: State)
    requires Settled(c) && c.resuming && c.validated && c.session.Some? && !c.cancelled && !Loses(c)
    ensures if c.replayed then
              c.stamped != [] && c.turn <= |c.stamped| && c.delivered == c.base + Added(c, |c.stamped|)
              && c.last == Some(c.stamped[|c.stamped| - 1].sequence)
            else
              c.delivered == c.base && c.last == c.first
  {
    hide Wanted, Live, Replayable;
    if c.replayed {
      var replay, live := Wanted(c.stamped[..c.turn]), Live(c.stamped[c.turn..|c.stamped|]);
      assert c.base + replay + live == c.base + (replay + live);
    }
  }

  lemma FirstHandedOver(conns: seq<State>)
    requires conns != [] && (conns[0].replayed ==> conns[0].turn <= |conns[0].stamped|)
    ensures HandedOver(conns) ==
            (if conns[0].replayed then Added(conns[0], |conns[0].stamped|) else []) + HandedOver(conns[1..])
  {
    hide Added;
  }

  lemma NoneHandedOver()
    ensures HandedOver([]) == []
  {
  }

  lemma Associative<T>(a: seq<T>, b: seq<T>, c: seq<T>)
    ensures (a + b) + c == a + (b + c) && a + b + [] == a + b
  {
  }

  lemma {:induction false} DeliveredAcross(conns: seq<State>, base: seq<Event>, first: Option<int>)
    requires conns != [] && Linked(conns, base, first) && forall i :: 0 <= i < |conns| ==> !Loses(conns[i])
    ensures conns[|conns| - 1].delivered == base + HandedOver(conns)
    decreases |conns|
  {
    hide Settled, Added, Loses, HandedOver;
    var c := conns[0];
    OneConnection(c);
    var part := if c.replayed then Added(c, |c.stamped|) else [];
    FirstHandedOver(conns);
    Associative(base, part, HandedOver(conns[1..]));
    if |conns| == 1 {
      NoneHandedOver();
      assert conns[1..] == [];
    } else {
      DeliveredAcross(conns[1..], c.delivered, c.last);
    }
  }

  lemma {:induction false} ContinuedAcross(conns: seq<State>, base: seq<Event>, first: Option<int>)
    requires conns != [] && Linked(conns, base, first) && forall i :: 0 <= i < |conns| ==> !Loses(conns[i])
    ensures conns[|conns| - 1].last == Continues(conns, first)
    decreases |conns|
  {
    hide Settled, Added, Loses;
    OneConnection(conns[0]);
    if |conns| > 1 {
      ContinuedAcross(conns[1..], conns[0].delivered, conns[0].last);
    }
  }

  /** Over any chain of resumed connections of which none lost an event between
      recording and handing it over, exactly the recorded events were delivered,
      once and in order, and the next RESUME continues behind them. Attempts that
      died before RESUMED leave no trace. */
  lemma AcrossConnections(conns: seq<State>, base: seq<Event>, first: Option<int>)
    requires conns != [] && Linked(conns, base, first) && forall i :: 0 <= i < |conns| ==> !Loses(conns[i])
    ensures conns[|conns| - 1].delivered == base + HandedOver(conns)
    ensures conns[|conns| - 1].last == Continues(conns, first)
  {
    hide *;
    DeliveredAcross(conns, base, first);
    ContinuedAcross(conns, base, first);
  }
}
