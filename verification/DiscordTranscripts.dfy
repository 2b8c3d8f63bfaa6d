/** What a gateway connection delivers when nothing disturbs it
    (internal/discordgateway/gateway.go:608-799). */
module DiscordTranscripts {
  import opened DiscordResume

  /** The events that are dispatched, in order. */
  function Events(messages: seq<Incoming>): seq<Event> {
    if messages == [] then []
    else
      var m := messages[|messages| - 1];
      Events(messages[..|messages| - 1]) + if m.Dispatch? then [m.event] else []
  }

  /** A message that carries no event and needs no answer, or gets it. */
  predicate Harmless(m: Incoming) {
    m.NoMessage? || m.NotEventData? || m.HeartbeatAck? || m == Heartbeat(true)
  }

  /** HELLO, then dispatches with harmless messages among them. */
  predicate Greets(messages: seq<Incoming>) {
    && messages != [] && messages[0] == Hello(true, true)
    && forall i :: 0 < i < |messages| ==> messages[i].Dispatch? || Harmless(messages[i])
  }

  /** A new connection of a gateway that is open. */
  predicate Begins(s: State) {
    && Current(s) && !s.done && !s.cancelled
    && !s.hello && !s.ready && !s.resuming && !s.replayed && s.replay == [] && s.stamped == [] && s.turn == 0
    && s.base == s.delivered && s.first == s.last
  }

  function Noted(s: State, events: seq<Event>): State
    requires events != []
  {
    s.(last := Some(events[|events| - 1].sequence), stamped := events)
  }

  /** After READY and what followed it. */
  function Identified(s: State, events: seq<Event>): State
    requires events != [] ==> events[0].kind.Ready?
  {
    if events == [] then s
    else
      Noted(s, events).(validated := true, session := Some(events[0].kind.sessionID), ready := true,
                        delivered := s.delivered + Live(events))
  }

  /** While the replay arrives, and after RESUMED, which comes with number `turn`. */
  function Replaying(s: State, events: seq<Event>, turn: nat): State {
    if events == [] then s
    else if |events| <= turn then Noted(s, events).(replay := Wanted(events))
    else
      Noted(s, events).(ready := true, turn := turn, replayed := true, replay := [],
                        delivered := s.delivered + Wanted(events[..turn]) + Live(events[turn..]))
  }

  lemma EventsMore(messages: seq<Incoming>)
    requires messages != []
    ensures var n := |messages| - 1;
            Events(messages) == Events(messages[..n]) + if messages[n].Dispatch? then [messages[n].event] else []
  {
  }

  lemma HeardMore(s: State, messages: seq<Incoming>)
    requires messages != []
    ensures var before := Heard(s, messages[..|messages| - 1]);
            Heard(s, messages) == if before.stop then before else Answered(before.state, messages[|messages| - 1])
  {
    hide Answered;
  }

  lemma GreetsFirst(s: State, messages: seq<Incoming>)
    requires Greets(messages) && Begins(s) && |messages| == 1
    ensures Heard(s, messages) == Answer(Announced(s.(hello := true)), false) && Events(messages) == []
  {
    assert messages[..0] == [];
    HeardMore(s, messages);
  }

  lemma HarmlessAnswer(s: State, m: Incoming)
    requires Current(s) && !s.done && s.hello && Harmless(m)
    ensures Answered(s, m) == Answer(s, false)
  {
  }

  /** One more event of an identified connection. */
  lemma IdentifiedMore(s: State, events: seq<Event>, e: Event)
    requires Current(s) && !s.done && s.hello && !s.ready && !s.resuming && s.stamped == [] && s.turn == 0
    requires events != [] ==> events[0].kind.Ready? && !e.kind.Ready? && !e.kind.Resumed?
    requires events == [] ==> e.kind.Ready? && e.kind.accepted
    ensures Answered(Identified(s, events), Dispatch(e)) == Answer(Identified(s, events + [e]), false)
  {
    hide Live, Wanted;
    WantedMore(events, e);
    assert s.delivered + (Live(events) + []) == s.delivered + Live(events);
    assert s.delivered + (Live(events) + [e]) == s.delivered + Live(events) + [e];
    if events == [] {
      NothingLive([], 0);
      assert s.delivered + [] == s.delivered && Live([]) == [];
    }
  }

  lemma {:induction false} IdentifiedUpTo(s: State, messages: seq<Incoming>, all: seq<Event>)
    requires Begins(s) && (s.session.None? || s.last.None?) && Greets(messages) && Events(messages) <= all
    requires all != [] && all[0].kind.Ready? && all[0].kind.accepted && Replayable(all[1..])
    ensures Heard(s, messages) == Answer(Identified(s.(hello := true), Events(messages)), false)
    decreases |messages|
  {
    hide Answered, Live, Wanted, Identified, Begins;
    var n, g := |messages| - 1, s.(hello := true);
    BeginsMeaning(s);
    if n == 0 {
      GreetsFirst(s, messages);
      IdentifiedNone(g);
    } else {
      var before := Events(messages[..n]);
      EventsMore(messages);
      HeardMore(s, messages);
      IdentifiedUpTo(s, messages[..n], all);
      if messages[n].Dispatch? {
        var e := messages[n].event;
        assert e == all[|before|];
        assert before != [] ==> before[0] == all[0] && e == all[1..][|before| - 1];
        IdentifiedMore(g, before, e);
      } else {
        assert before + [] == before;
        IdentifiedStays(g, before);
        HarmlessAnswer(Identified(g, before), messages[n]);
      }
    }
  }

  lemma BeginsMeaning(s: State)
    requires Begins(s)
    ensures var g := s.(hello := true);
            Current(g) && !g.done && !g.cancelled && g.hello && !g.ready && !g.resuming && g.replay == []
            && g.stamped == [] && g.turn == 0
    ensures s.session.None? || s.last.None? ==> Announced(s.(hello := true)) == s.(hello := true)
    ensures s.session.Some? && s.last.Some? ==>
              Announced(s.(hello := true)) == s.(hello := true, resuming := true, checkpoint := s.last)
  {
  }

  lemma IdentifiedNone(s: State)
    ensures Identified(s, []) == s
  {
  }

  lemma IdentifiedStays(s: State, events: seq<Event>)
    requires Current(s) && !s.done && s.hello && (events != [] ==> events[0].kind.Ready?)
    ensures var t := Identified(s, events); Current(t) && !t.done && t.hello
  {
  }

  /** IDENTIFY: after HELLO, an accepted READY and other events, all of them are recorded and
      every wanted one was delivered once and in order; the session is the one of READY, and
      a later RESUME continues behind the last event. */
  lemma IdentifyDelivers(s: State, messages: seq<Incoming>, ready: Event, live: seq<Event>)
    requires Begins(s) && (s.session.None? || s.last.None?) && Greets(messages)
    requires Events(messages) == [ready] + live && ready.kind.Ready? && ready.kind.accepted && Replayable(live)
    ensures var end := Finished(Heard(s, messages));
            && end.stamped == [ready] + live && end.delivered == s.delivered + Live([ready] + live)
            && end.last == Some(([ready] + live)[|live|].sequence)
            && end.session == Some(ready.kind.sessionID) && end.validated && !end.active
  {
    hide Heard, Events, Live, Begins, Answered, Greets;
    BeginsMeaning(s);
    var all := [ready] + live;
    assert all[1..] == live;
    IdentifiedUpTo(s, messages, all);
  }

  /** A resumed connection on which nothing has arrived. */
  predicate Asked(s: State) {
    && Current(s) && !s.done && !s.cancelled && s.hello && s.resuming && !s.ready && !s.replayed
    && s.validated && s.session.Some? && s.replay == [] && s.stamped == [] && s.turn == 0
  }

  lemma ReplayingMore(s: State, events: seq<Event>, turn: nat, e: Event)
    requires Asked(s) && !e.kind.Ready? && (e.kind.Resumed? <==> |events| == turn)
    requires |events| < turn ==> |Wanted(events + [e])| <= REPLAY_CAPACITY
    ensures Answered(Replaying(s, events, turn), Dispatch(e)) == Answer(Replaying(s, events + [e], turn), false)
  {
    var all, t := events + [e], Replaying(s, events, turn);
    assert Current(t) && !t.done && t.hello;
    assert Answered(t, Dispatch(e)) == Dispatched(t, e);
    hide Answered, Live, Wanted;
    WantedMore(events, e);
    if |events| < turn {
      ReplayGrows(s, events, turn, e);
    } else if |events| == turn {
      ReplayEnds(s, events, e);
    } else {
      LiveGrows(s, events, turn, e);
    }
  }

  lemma ReplayGrows(s: State, events: seq<Event>, turn: nat, e: Event)
    requires Asked(s) && |events| < turn && !e.kind.Ready? && !e.kind.Resumed?
    requires |Wanted(events + [e])| <= REPLAY_CAPACITY
    ensures Dispatched(Replaying(s, events, turn), e) == Answer(Replaying(s, events + [e], turn), false)
  {
    hide Live, Wanted;
    WantedMore(events, e);
    if events == [] {
      NoneWanted();
    }
  }

  lemma NoneWanted()
    ensures Wanted([]) == [] && Live([]) == []
  {
  }

  lemma ReplayEnds(s: State, events: seq<Event>, e: Event)
    requires Asked(s) && e.kind.Resumed?
    ensures Dispatched(Replaying(s, events, |events|), e) == Answer(Replaying(s, events + [e], |events|), false)
  {
    hide Live, Wanted;
    NoneWanted();
    WantedMore([], e);
    var all := events + [e];
    assert all[..|events|] == events && all[|events|..] == [] + [e];
    assert s.delivered + Wanted(events) + [] == s.delivered + Wanted(events);
  }

  lemma LiveGrows(s: State, events: seq<Event>, turn: nat, e: Event)
    requires Asked(s) && turn < |events| && !e.kind.Ready? && !e.kind.Resumed?
    ensures Dispatched(Replaying(s, events, turn), e) == Answer(Replaying(s, events + [e], turn), false)
  {
    hide Live, Wanted;
    var all := events + [e];
    WantedMore(events[turn..], e);
    assert all[..turn] == events[..turn] && all[turn..] == events[turn..] + [e];
    var lead := s.delivered + Wanted(events[..turn]);
    assert lead + (Live(events[turn..]) + [e]) == lead + Live(events[turn..]) + [e];
    assert lead + (Live(events[turn..]) + []) == lead + Live(events[turn..]);
  }

  lemma {:induction false} WantedPrefix(events: seq<Event>, k: nat)
    requires k <= |events|
    ensures |Wanted(events[..k])| <= |Wanted(events)|
    decreases |events| - k
  {
    if k < |events| {
      assert events[..k + 1] == events[..k] + [events[k]];
      WantedMore(events[..k], events[k]);
      WantedPrefix(events, k + 1);
    } else {
      assert events[..k] == events;
    }
  }

  /** Which event of the transcript comes next, and that it still fits. */
  lemma NextEvent(replay: seq<Event>, resumed: Event, live: seq<Event>, k: nat)
    requires Replayable(replay) && resumed.kind.Resumed? && Replayable(live) && |Wanted(replay)| <= REPLAY_CAPACITY
    requires k < |replay + [resumed] + live|
    ensures var e := (replay + [resumed] + live)[k];
            && !e.kind.Ready? && (e.kind.Resumed? <==> k == |replay|)
            && (k < |replay| ==> |Wanted((replay + [resumed] + live)[..k] + [e])| <= REPLAY_CAPACITY)
  {
    hide Wanted;
    var all := replay + [resumed] + live;
    if k < |replay| {
      assert all[..k] + [all[k]] == replay[..k + 1];
      WantedPrefix(replay, k + 1);
    } else if k > |replay| {
      assert all[k] == live[k - |replay| - 1];
    }
  }

  lemma ReplayingStays(s: State, events: seq<Event>, turn: nat)
    requires Asked(s)
    ensures var t := Replaying(s, events, turn); Current(t) && !t.done && t.hello
  {
  }

  lemma BeginsAsked(s: State)
    requires Begins(s) && s.session.Some? && s.last.Some? && s.validated
    ensures Asked(Announced(s.(hello := true)))
  {
  }

  lemma ReplayingNone(s: State, turn: nat)
    ensures Replaying(s, [], turn) == s
  {
  }

  lemma {:induction false} ReplayingUpTo(s: State, messages: seq<Incoming>, replay: seq<Event>, resumed: Event,
                                         live: seq<Event>)
    requires Begins(s) && s.session.Some? && s.last.Some? && s.validated && Greets(messages)
    requires Replayable(replay) && resumed.kind.Resumed? && Replayable(live) && |Wanted(replay)| <= REPLAY_CAPACITY
    requires Events(messages) <= replay + [resumed] + live
    ensures Heard(s, messages) == Answer(Replaying(Announced(s.(hello := true)), Events(messages), |replay|), false)
    decreases |messages|
  {
    hide Answered, Live, Wanted, Replaying, Begins, Asked, Announced, Replayable;
    var n, g := |messages| - 1, Announced(s.(hello := true));
    BeginsAsked(s);
    if n == 0 {
      GreetsFirst(s, messages);
      ReplayingNone(g, |replay|);
    } else {
      var before := Events(messages[..n]);
      EventsMore(messages);
      HeardMore(s, messages);
      ReplayingUpTo(s, messages[..n], replay, resumed, live);
      if messages[n].Dispatch? {
        var e := messages[n].event;
        NextEvent(replay, resumed, live, |before|);
        assert e == (replay + [resumed] + live)[|before|] && before == (replay + [resumed] + live)[..|before|];
        ReplayingMore(g, before, |replay|, e);
      } else {
        assert before + [] == before;
        ReplayingStays(g, before, |replay|);
        HarmlessAnswer(Replaying(g, before, |replay|), messages[n]);
      }
    }
  }

  /** RESUME: after HELLO, at most 1024 wanted events of the replay, RESUMED and other
      events, all of them are recorded; the wanted ones of the replay and then those
      after it were delivered once and in order, and a later RESUME of the same session
      continues behind the last event. */
  lemma ResumeDelivers(s: State, messages: seq<Incoming>, replay: seq<Event>, resumed: Event, live: seq<Event>)
    requires Begins(s) && s.session.Some? && s.last.Some? && s.validated && Greets(messages)
    requires Replayable(replay) && resumed.kind.Resumed? && Replayable(live) && |Wanted(replay)| <= REPLAY_CAPACITY
    requires Events(messages) == replay + [resumed] + live
    ensures var end, all := Finished(Heard(s, messages)), replay + [resumed] + live;
            && end.stamped == all && end.delivered == s.delivered + Wanted(replay) + Live([resumed] + live)
            && end.last == Some(all[|all| - 1].sequence) && end.session == s.session && end.validated && !end.active
  {
    hide Heard, Events, Live, Begins, Answered, Greets, Wanted, Replayable;
    var all := replay + [resumed] + live;
    assert all[..|replay|] == replay && all[|replay|..] == [resumed] + live;
    BeginsMeaning(s);
    ReplayingUpTo(s, messages, replay, resumed, live);
  }

  /** A connection that ended before RESUMED. */
  predicate GivenUp(s: State, a: Answer) {
    && a.stop && a.state.delivered == s.delivered && a.state.resuming && !a.state.replayed
    && a.state.validated && a.state.session == s.session && a.state.checkpoint == s.checkpoint
  }

  /** One event more than the replay may hold. */
  lemma ReplayOverflows(s: State, events: seq<Event>, turn: nat, e: Event)
    requires Asked(s) && |events| < turn && !e.kind.Ready? && !e.kind.Resumed?
    requires |Wanted(events)| <= REPLAY_CAPACITY < |Wanted(events + [e])|
    ensures GivenUp(s, Answered(Replaying(s, events, turn), Dispatch(e)))
  {
    hide Live, Wanted;
    NoneWanted();
    WantedMore(events, e);
  }

  lemma {:induction false} GathersOrGivesUp(s: State, messages: seq<Incoming>, replay: seq<Event>, rest: seq<Event>)
    requires Begins(s) && s.session.Some? && s.last.Some? && s.validated && Greets(messages)
    requires Replayable(replay) && Events(messages) <= replay + rest
    requires rest == [] || |Wanted(replay)| > REPLAY_CAPACITY
    ensures var a, g, events := Heard(s, messages), Announced(s.(hello := true)), Events(messages);
            GivenUp(g, a) || (a == Answer(Replaying(g, events, |replay|), false) && |events| <= |replay|
                              && |Wanted(events)| <= REPLAY_CAPACITY)
    decreases |messages|
  {
    hide Answered, Live, Wanted, Replaying, Begins, Asked, Announced, GivenUp;
    var n, g := |messages| - 1, Announced(s.(hello := true));
    BeginsAsked(s);
    if n == 0 {
      GreetsFirst(s, messages);
      ReplayingNone(g, |replay|);
      NoneWanted();
    } else {
      var before := Events(messages[..n]);
      EventsMore(messages);
      HeardMore(s, messages);
      GathersOrGivesUp(s, messages[..n], replay, rest);
      if !GivenUp(g, Heard(s, messages[..n])) {
        if messages[n].Dispatch? {
          var e := messages[n].event;
          Fits(replay, rest, before);
          assert before + [e] == Events(messages) && e == (replay + rest)[|before|] == replay[|before|];
          if |Wanted(before + [e])| <= REPLAY_CAPACITY {
            ReplayingMore(g, before, |replay|, e);
          } else {
            ReplayOverflows(g, before, |replay|, e);
          }
        } else {
          assert before + [] == before;
          ReplayingStays(g, before, |replay|);
          HarmlessAnswer(Replaying(g, before, |replay|), messages[n]);
        }
      } else {
        GivenUpStops(g, Heard(s, messages[..n]));
      }
    }
  }

  lemma GivenUpStops(s: State, a: Answer)
    requires GivenUp(s, a)
    ensures a.stop
  {
  }

  /** A replay that fits so far is not over yet. */
  lemma Fits(replay: seq<Event>, rest: seq<Event>, before: seq<Event>)
    requires before < replay + rest && |before| <= |replay| && |Wanted(before)| <= REPLAY_CAPACITY
    requires rest == [] || |Wanted(replay)| > REPLAY_CAPACITY
    ensures |before| < |replay|
  {
    hide Wanted;
    SamePrefix(before, replay, rest);
  }

  lemma SamePrefix(before: seq<Event>, replay: seq<Event>, rest: seq<Event>)
    requires before <= replay + rest
    ensures |before| == |replay| ==> before == replay
  {
    assert (replay + rest)[..|replay|] == replay;
  }

  /** A replay of more than 1024 wanted events, or one that RESUMED never ends, delivers
      nothing: the session is kept and a later RESUME asks for the same events again. */
  lemma ReplayIsAskedAgain(s: State, messages: seq<Incoming>, replay: seq<Event>, rest: seq<Event>)
    requires Begins(s) && s.session.Some? && s.last.Some? && s.validated && Greets(messages)
    requires Replayable(replay) && Events(messages) == replay + rest
    requires rest == [] || |Wanted(replay)| > REPLAY_CAPACITY
    ensures var end := Finished(Heard(s, messages));
            end.delivered == s.delivered && end.last == s.last && end.session == s.session && end.validated
  {
    hide Heard, Events, Live, Wanted, Answered, Greets, Replayable;
    BeginsMeaning(s);
    GathersOrGivesUp(s, messages, replay, rest);
  }

  // One message

  /** On a current connection exactly these messages end it. */
  predicate Ends(s: State, m: Incoming) {
    match m
    case Broken(_) => true
    case NoMessage => false
    case Hello(positive, sent) => s.hello || !positive || !sent
    case Dispatch(e) =>
      || !s.hello
      || (e.kind.Ready? && (s.ready || s.resuming || !e.kind.accepted))
      || (e.kind.Resumed? && (s.ready || !s.resuming || !s.validated || s.session.None?
                              || (s.cancelled && s.replay != [])))
      || (!e.kind.Ready? && !e.kind.Resumed? && !s.ready && s.resuming && e.wanted && |s.replay| == 1024)
    case NotEventData => !s.hello
    case Heartbeat(sent) => !sent
    case HeartbeatAck => false
    case Reconnect => true
    case InvalidSession(_) => true
  }

  predicate Grows(s: State, a: Answer, e: Event) {
    && (a.state.stamped == s.stamped || a.state.stamped == s.stamped + [e])
    && s.delivered <= a.state.delivered && (a.state.delivered != s.delivered ==> a.state.stamped == s.stamped + [e])
  }

  lemma GrowsByEvent(s: State, t: State, e: Event, more: seq<Event>, stop: bool)
    requires t.stamped == s.stamped + [e] && t.delivered == s.delivered + more
    ensures Grows(s, Answer(t, stop), e)
  {
  }

  lemma GrowsLive(s: State, t: State, e: Event)
    requires t.stamped == s.stamped && t.delivered == s.delivered
    ensures Grows(s, Answer(WithLive(Recording(t, e), e), false), e)
    ensures WithLive(Recording(t, e), e).session == t.session
  {
    hide Grows;
    assert s.delivered + [] == s.delivered;
    GrowsByEvent(s, WithLive(Recording(t, e), e), e, if LiveWanted(e) then [e] else [], false);
  }

  lemma GrowsByReplay(s: State, e: Event)
    ensures var a := Resumption(s, e);
            (a.stop <==> s.cancelled && s.replay != []) && a.state.session == s.session && Grows(s, a, e)
  {
    hide Grows;
    var a, live := Resumption(s, e), if LiveWanted(e) then [e] else [];
    assert s.delivered + [] == s.delivered && s.replay + [] == s.replay;
    if a.stop {
      GrowsByEvent(s, a.state, e, [], a.stop);
    } else {
      assert s.delivered + s.replay + live == s.delivered + (s.replay + live);
      GrowsByEvent(s, a.state, e, s.replay + live, a.stop);
    }
  }

  lemma GrowsByCapture(s: State, r: State, e: Event)
    requires r.stamped == s.stamped + [e] && r.delivered == s.delivered && r.replay == s.replay
    ensures var a := Captures(r, e);
            (a.stop <==> e.wanted && |s.replay| == 1024) && a.state.session == r.session && Grows(s, a, e)
  {
  }

  lemma GrowsNot(s: State, e: Event)
    ensures Grows(s, Ending(s), e) && Grows(s, Answer(Recording(s, e), false), e)
  {
  }

  lemma DispatchMeaning(s: State, e: Event)
    ensures var a := Dispatched(s, e);
            && (a.stop <==> Ends(s, Dispatch(e))) && (s.session.Some? ==> a.state.session.Some?) && Grows(s, a, e)
  {
    hide Grows, Captures, Resumption, WithLive, Recording;
    GrowsNot(s, e);
    RecordingMeaning(s, e);
    if e.kind.Ready? {
      GrowsLive(s, Accepting(s, e.kind.sessionID), e);
    } else if e.kind.Resumed? {
      GrowsByReplay(s, e);
    } else if s.ready {
      GrowsLive(s, s, e);
    } else if s.resuming {
      GrowsByCapture(s, Recording(s, e), e);
    }
  }

  lemma RecordingMeaning(s: State, e: Event)
    ensures var r := Recording(s, e);
            r.session == s.session && r.stamped == s.stamped + [e] && r.delivered == s.delivered && r.replay == s.replay
  {
  }

  /** What one message changes: whether the connection ends, the session, which only the
      two close codes and an invalid session clear, and that nothing is delivered but what
      the replay holds and the event itself. */
  lemma MessageMeaning(s: State, m: Incoming)
    requires Current(s) && !s.done
    ensures var a := Answered(s, m);
            && (a.stop <==> Ends(s, m))
            && (s.session.Some? ==> (a.state.session.None? <==> Clears(m)))
            && if m.Dispatch? then Grows(s, a, m.event)
               else a.state.stamped == s.stamped && a.state.delivered == s.delivered
  {
    hide Dispatched, Grows, Greeting;
    if m.Dispatch? {
      DispatchMeaning(s, m.event);
    } else if m.Hello? {
      GreetingMeaning(s, m.positive, m.sent);
    }
  }

  lemma GreetingMeaning(s: State, positive: bool, sent: bool)
    ensures var a := Greeting(s, positive, sent);
            && (a.stop <==> s.hello || !positive || !sent) && a.state.session == s.session
            && a.state.stamped == s.stamped && a.state.delivered == s.delivered
  {
  }

  // A listener

  /** A new listener whose connection nothing disturbs. */
  ghost predicate Undisturbed(l: Listener)
    reads l
  {
    l.Unstarted() && Current(l.Now()) && !l.done && !l.cancelled && Calmly(l.script)
  }

  /** It identifies itself: everything that was sent after READY is delivered. */
  method ListenIdentified(l: Listener, messages: seq<Incoming>, ready: Event, live: seq<Event>)
    requires Undisturbed(l) && (l.session.None? || l.last.None?) && Greets(messages)
    requires Events(messages) == [ready] + live && ready.kind.Ready? && ready.kind.accepted && Replayable(live)
    modifies l
    ensures l.stamped == [ready] + live && l.delivered == old(l.delivered) + Live([ready] + live)
    ensures l.last == Some(([ready] + live)[|live|].sequence) && l.session == Some(ready.kind.sessionID) && l.validated
  {
    hide Heard, Events, Live, Greets, Calmly, Settled, Finished;
    IdentifyDelivers(l.Now(), messages, ready, live);
    l.Listen(messages);
  }

  /** It resumes: the replay and everything after RESUMED is delivered, or, if the replay
      is too long or RESUMED does not come, nothing is and the number sent is back. */
  method ListenResumed(l: Listener, messages: seq<Incoming>, replay: seq<Event>, rest: seq<Event>)
    requires Undisturbed(l) && l.session.Some? && l.last.Some? && l.validated && Greets(messages)
    requires Events(messages) == replay + rest && Replayable(replay)
    requires rest != [] ==> rest[0].kind.Resumed? && Replayable(rest[1..])
    modifies l
    ensures l.session == old(l.session) && l.validated
    ensures if rest != [] && |Wanted(replay)| <= 1024 then
              && l.stamped == replay + rest && l.delivered == old(l.delivered) + Wanted(replay) + Live(rest)
              && l.last == Some(rest[|rest| - 1].sequence)
            else l.delivered == old(l.delivered) && l.last == old(l.last)
  {
    hide Heard, Events, Live, Wanted, Greets, Calmly, Settled, Finished, Replayable;
    if rest != [] && |Wanted(replay)| <= 1024 {
      assert rest == [rest[0]] + rest[1..] && replay + rest == replay + [rest[0]] + rest[1..];
      ResumeDelivers(l.Now(), messages, replay, rest[0], rest[1..]);
    } else {
      ReplayIsAskedAgain(l.Now(), messages, replay, rest);
    }
    l.Listen(messages);
  }
}
