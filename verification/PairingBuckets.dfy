/** Token buckets against guessing and noise from unpaired chats
    (internal/gateway/inbound_admission.go:102-113, internal/gateway/pairing.go:93-111, 265-298).
    Times are in nanoseconds. */
module PairingBuckets {

  const SECOND: int := 1_000_000_000
  const ATTEMPTS: nat := 30
  const ATTEMPT_INTERVAL: int := 2 * SECOND

  datatype Bucket = Bucket(tokens: nat, refilled: int)

  /** Whole intervals since the last refill; the rest of the time is kept for the next one. */
  function Replenished(b: Bucket, now: int, interval: int): nat
    requires interval > 0
  {
    if now < b.refilled then 0 else (now - b.refilled) / interval
  }

  function Refill(b: Bucket, now: int, size: nat, interval: int): Bucket
    requires interval > 0
  {
    var k := Replenished(b, now, interval);
    if k == 0 then b else Bucket(if b.tokens + k < size then b.tokens + k else size, b.refilled + k * interval)
  }

  /** One attempt: refill, then spend a token if there is one. */
  function Spend(b: Bucket, now: int, size: nat, interval: int): (Bucket, bool)
    requires interval > 0
  {
    var r := Refill(b, now, size, interval);
    if r.tokens == 0 then (r, false) else (r.(tokens := r.tokens - 1), true)
  }

  function After(b: Bucket, times: seq<int>, size: nat, interval: int): Bucket
    requires interval > 0
    decreases |times|
  {
    if times == [] then b
    else Spend(After(b, times[..|times| - 1], size, interval), times[|times| - 1], size, interval).0
  }

  function Granted(b: Bucket, times: seq<int>, size: nat, interval: int): nat
    requires interval > 0
    decreases |times|
  {
    if times == [] then 0
    else
      Granted(b, times[..|times| - 1], size, interval) +
      if Spend(After(b, times[..|times| - 1], size, interval), times[|times| - 1], size, interval).1 then 1 else 0
  }

  predicate Sorted(times: seq<int>) {
    forall i, j :: 0 <= i < j < |times| ==> times[i] <= times[j]
  }

  predicate Within(b: Bucket, size: nat) {
    b.tokens <= size
  }

  lemma RefillMeaning(b: Bucket, now: int, size: nat, interval: int)
    requires interval > 0 && Within(b, size)
    ensures var r := Refill(b, now, size, interval);
            && Within(r, size) && r.refilled == b.refilled + Replenished(b, now, interval) * interval
            && r.tokens <= b.tokens + Replenished(b, now, interval)
            && (b.refilled <= now ==> r.refilled <= now < r.refilled + interval)
  {
    if b.refilled <= now {
      var d := now - b.refilled;
      assert d == (d / interval) * interval + d % interval;
    }
  }

  /** How many intervals the refills have covered. */
  function Refills(b: Bucket, times: seq<int>, size: nat, interval: int): nat
    requires interval > 0
    decreases |times|
  {
    if times == [] then 0
    else
      var front := times[..|times| - 1];
      Refills(b, front, size, interval) + Replenished(After(b, front, size, interval), times[|times| - 1], interval)
  }

  /** What was granted is paid for by the tokens at the start and the refills since. */
  lemma {:induction false} GrantedPaid(b: Bucket, times: seq<int>, size: nat, interval: int)
    requires interval > 0 && Within(b, size)
    ensures var after := After(b, times, size, interval);
            && Within(after, size) && after.refilled == b.refilled + Refills(b, times, size, interval) * interval
            && Granted(b, times, size, interval) + after.tokens <= b.tokens + Refills(b, times, size, interval)
    decreases |times|
  {
    hide Refill, Replenished;
    if times != [] {
      var front, t := times[..|times| - 1], times[|times| - 1];
      var mid := After(b, front, size, interval);
      var k, n := Replenished(mid, t, interval), Refills(b, front, size, interval);
      GrantedPaid(b, front, size, interval);
      RefillMeaning(mid, t, size, interval);
      Distribute(n, k, interval);
    }
  }

  lemma Distribute(a: int, b: int, c: int)
    ensures (a + b) * c == a * c + b * c
  {
  }

  // How many are granted in an interval

  lemma RefillTwice(b: Bucket, now: int, size: nat, interval: int)
    requires interval > 0 && Within(b, size)
    ensures Refill(Refill(b, now, size, interval), now, size, interval) == Refill(b, now, size, interval)
  {
    RefillMeaning(b, now, size, interval);
    var r := Refill(b, now, size, interval);
    if b.refilled <= now {
      assert 0 <= now - r.refilled < interval;
      assert (now - r.refilled) / interval == 0;
    }
  }

  lemma {:induction false} RefilledFirst(b: Bucket, times: seq<int>, size: nat, interval: int)
    requires interval > 0 && Within(b, size) && times != []
    ensures var r := Refill(b, times[0], size, interval);
            && After(r, times, size, interval) == After(b, times, size, interval)
            && Granted(r, times, size, interval) == Granted(b, times, size, interval)
    decreases |times|
  {
    hide Refill;
    var front := times[..|times| - 1];
    if |times| == 1 {
      RefillTwice(b, times[0], size, interval);
      assert front == [];
    } else {
      assert front[0] == times[0];
      RefilledFirst(b, front, size, interval);
    }
  }

  lemma {:induction false} NeverAhead(b: Bucket, times: seq<int>, size: nat, interval: int)
    requires interval > 0 && Within(b, size) && times != [] && Sorted(times) && b.refilled <= times[0]
    ensures After(b, times, size, interval).refilled <= times[|times| - 1]
    decreases |times|
  {
    var front, last := times[..|times| - 1], |times| - 1;
    if front == [] {
      RefillMeaning(b, times[0], size, interval);
    } else {
      NeverAhead(b, front, size, interval);
      assert times[last - 1] <= times[last];
      GrantedPaid(b, front, size, interval);
      RefillMeaning(After(b, front, size, interval), times[last], size, interval);
    }
  }

  /** In any interval at most `size` attempts are granted, and one more for every
      refill interval begun in it. */
  lemma WindowBound(b: Bucket, times: seq<int>, size: nat, interval: int, from: int, length: nat)
    requires interval > 0 && Within(b, size) && Sorted(times)
    requires times != [] ==> b.refilled <= times[0] && from <= times[0] && times[|times| - 1] <= from + length
    ensures Granted(b, times, size, interval) <= size + (length + interval - 1) / interval
  {
    if times != [] {
      var r := Refill(b, times[0], size, interval);
      RefillMeaning(b, times[0], size, interval);
      RefilledFirst(b, times, size, interval);
      GrantedPaid(r, times, size, interval);
      NeverAhead(r, times, size, interval);
      Rounded(Refills(r, times, size, interval), interval, length);
    }
  }

  lemma Rounded(k: nat, interval: int, length: nat)
    requires interval > 0 && k * interval < length + interval
    ensures k <= (length + interval - 1) / interval
  {
    var m := length + interval - 1;
    var q := m / interval;
    assert m == q * interval + m % interval;
    assert (k - q) * interval == k * interval - q * interval;
    LessThanOne(k - q, interval);
  }

  lemma LessThanOne(a: int, c: int)
    requires c > 0 && a * c < c
    ensures a <= 0
  {
  }

  // Attempts at the pairing code

  /** PlatformReady seeds the budget once; an attempt spends from it. */
  datatype Event = Ready(at: int) | Attempt(at: int)

  function Next(s: Option<Bucket>, e: Event): Option<Bucket> {
    match e
    case Ready(at) => if s.None? then Some(Bucket(ATTEMPTS, at)) else s
    case Attempt(at) => if s.None? then s else Some(Spend(s.value, at, ATTEMPTS, ATTEMPT_INTERVAL).0)
  }

  predicate Charged(s: Option<Bucket>, e: Event) {
    e.Attempt? && s.Some? && Spend(s.value, e.at, ATTEMPTS, ATTEMPT_INTERVAL).1
  }

  function Platform(s: Option<Bucket>, events: seq<Event>): Option<Bucket>
    decreases |events|
  {
    if events == [] then s else Next(Platform(s, events[..|events| - 1]), events[|events| - 1])
  }

  function Charges(s: Option<Bucket>, events: seq<Event>): nat
    decreases |events|
  {
    if events == [] then 0
    else
      Charges(s, events[..|events| - 1]) +
      if Charged(Platform(s, events[..|events| - 1]), events[|events| - 1]) then 1 else 0
  }

  datatype Option<+T> = None | Some(value: T)

  /** The times of the attempts made while the platform is known. */
  function Times(s: Option<Bucket>, events: seq<Event>): seq<int>
    decreases |events|
  {
    if events == [] then []
    else
      var e := events[|events| - 1];
      Times(s, events[..|events| - 1]) +
      if e.Attempt? && Platform(s, events[..|events| - 1]).Some? then [e.at] else []
  }

  predicate Ordered(events: seq<Event>) {
    forall i, j :: 0 <= i < j < |events| ==> events[i].at <= events[j].at
  }

  /** Reconnecting changes nothing: the budget is that of the attempts alone. */
  lemma {:induction false} ReconnectsDoNotCount(b: Bucket, events: seq<Event>)
    ensures Platform(Some(b), events) == Some(After(b, Times(Some(b), events), ATTEMPTS, ATTEMPT_INTERVAL))
    ensures Charges(Some(b), events) == Granted(b, Times(Some(b), events), ATTEMPTS, ATTEMPT_INTERVAL)
    decreases |events|
  {
    hide Spend;
    if events != [] {
      var front, e := events[..|events| - 1], events[|events| - 1];
      ReconnectsDoNotCount(b, front);
      var times := Times(Some(b), front);
      assert (times + [e.at])[..|times|] == times;
      assert times + [] == times;
    }
  }

  lemma {:induction false} TimesWithin(s: Option<Bucket>, events: seq<Event>)
    requires Ordered(events)
    ensures var times := Times(s, events);
            && Sorted(times)
            && forall i :: 0 <= i < |times| ==> exists j :: 0 <= j < |events| && events[j].at == times[i]
    decreases |events|
  {
    if events != [] {
      var front, e := events[..|events| - 1], events[|events| - 1];
      TimesWithin(s, front);
      var times := Times(s, front);
      forall i | 0 <= i < |times|
        ensures times[i] <= e.at && exists j :: 0 <= j < |events| && events[j].at == times[i]
      {
        var j :| 0 <= j < |front| && front[j].at == times[i];
        assert events[j].at == times[i];
      }
      assert events[|events| - 1].at == e.at;
    }
  }

  /** However often a platform reconnects, the attempts charged in any interval
      number at most 30, and one for every two seconds begun in it. */
  lemma AttemptsBounded(b: Bucket, events: seq<Event>, from: int, length: nat)
    requires b.tokens <= ATTEMPTS && Ordered(events)
    requires forall e <- events :: b.refilled <= e.at && from <= e.at <= from + length
    ensures Charges(Some(b), events) <= 30 + (length + 2 * SECOND - 1) / (2 * SECOND)
  {
    hide Charges, Granted, Times, Sorted, Platform, After;
    var times := Times(Some(b), events);
    ReconnectsDoNotCount(b, events);
    TimesWithin(Some(b), events);
    if times != [] {
      var j :| 0 <= j < |events| && events[j].at == times[0];
      var k :| 0 <= k < |events| && events[k].at == times[|times| - 1];
      assert events[j] in events && events[k] in events;
    }
    WindowBound(b, times, ATTEMPTS, ATTEMPT_INTERVAL, from, length);
  }

  lemma {:induction false} ChargesSplit(s: Option<Bucket>, a: seq<Event>, b: seq<Event>)
    ensures Platform(s, a + b) == Platform(Platform(s, a), b)
    ensures Charges(s, a + b) == Charges(s, a) + Charges(Platform(s, a), b)
    decreases |b|
  {
    hide Next, Charged;
    if b == [] {
      assert a + b == a;
    } else {
      var front := b[..|b| - 1];
      ChargesSplit(s, a, front);
      assert (a + b)[..|a + b| - 1] == a + front && (a + b)[|a + b| - 1] == b[|b| - 1];
    }
  }

  /** A platform's bucket never holds more than thirty tokens, nor a time to come. */
  lemma {:induction false} PlatformWithin(events: seq<Event>)
    requires Ordered(events)
    ensures Platform(None, events).Some? ==>
              && events != [] && Platform(None, events).value.tokens <= ATTEMPTS
              && Platform(None, events).value.refilled <= events[|events| - 1].at
    decreases |events|
  {
    if events != [] {
      var front, e := events[..|events| - 1], events[|events| - 1];
      PlatformWithin(front);
      assert front != [] ==> front[|front| - 1].at <= e.at;
      var s := Platform(None, front);
      if e.Attempt? && s.Some? {
        RefillMeaning(s.value, e.at, ATTEMPTS, ATTEMPT_INTERVAL);
      }
    }
  }

  lemma OneEvent(first: Event)
    ensures Platform(None, [first]) == (if first.Ready? then Some(Bucket(ATTEMPTS, first.at)) else None)
            && Charges(None, [first]) == 0
    ensures Charges(None, []) == 0
  {
    assert [first][..0] == [];
  }

  function Bound(length: nat): nat {
    30 + (length + 2 * SECOND - 1) / (2 * SECOND)
  }

  /** Before the platform was ever ready nothing is charged. */
  lemma {:induction false} FirstReady(window: seq<Event>, from: int, length: nat)
    requires Ordered(window) && forall e <- window :: from <= e.at <= from + length
    ensures Charges(None, window) <= Bound(length)
    decreases |window|
  {
    hide *;
    if window == [] {
      OneEvent(Ready(0));
    } else {
      var first, rest := window[0], window[1..];
      OneEvent(first);
      assert window == [first] + rest;
      ChargesSplit(None, [first], rest);
      RestOrdered(window, from, length);
      if first.Ready? {
        Bounded(Bucket(ATTEMPTS, first.at), rest, from, length);
      } else {
        FirstReady(rest, from, length);
      }
    }
  }

  lemma RestOrdered(window: seq<Event>, from: int, length: nat)
    requires window != [] && Ordered(window) && forall e <- window :: from <= e.at <= from + length
    ensures Ordered(window[1..]) && forall e <- window[1..] :: window[0].at <= e.at && from <= e.at <= from + length
  {
    assert forall i :: 0 <= i < |window| - 1 ==> window[1..][i] == window[i + 1];
  }

  lemma Bounded(b: Bucket, events: seq<Event>, from: int, length: nat)
    requires b.tokens <= ATTEMPTS && Ordered(events)
    requires forall e <- events :: b.refilled <= e.at && from <= e.at <= from + length
    ensures Charges(Some(b), events) <= Bound(length)
  {
    hide Charges, Ordered;
    AttemptsBounded(b, events, from, length);
  }

  /** Over a whole run that begins before the platform was ever ready, and in any window
      of it, the attempts charged number at most 30, and one for every two seconds begun. */
  lemma AnyWindowBounded(before: seq<Event>, window: seq<Event>, from: int, length: nat)
    requires Ordered(before + window) && forall e <- window :: from <= e.at <= from + length
    ensures Charges(None, before + window) - Charges(None, before) <= 30 + (length + 2 * SECOND - 1) / (2 * SECOND)
  {
    hide Charges, Platform;
    var run := before + window;
    assert forall i :: 0 <= i < |before| ==> run[i] == before[i];
    assert forall i :: 0 <= i < |window| ==> run[|before| + i] == window[i];
    ChargesSplit(None, before, window);
    PlatformWithin(before);
    var s := Platform(None, before);
    if s.None? {
      FirstReady(window, from, length);
    } else {
      assert forall e <- window :: s.value.refilled <= e.at;
      AttemptsBounded(s.value, window, from, length);
    }
  }

  // Hint replies, one bucket for each private chat

  const HINTS: nat := 10
  const HINT_INTERVAL: int := 10 * SECOND
  const HINT_CHATS: nat := 256

  type Hints = map<string, Bucket>

  /** Long enough ago that the bucket has refilled completely. */
  predicate Idle(b: Bucket, now: int) {
    now - b.refilled >= HINTS * HINT_INTERVAL
  }

  function Evicted(hints: Hints, now: int): Hints {
    map id | id in hints && !Idle(hints[id], now) :: hints[id]
  }

  function RoomFor(hints: Hints, chat: string, now: int): Hints {
    if chat in hints || |hints| < HINT_CHATS then hints else Evicted(hints, now)
  }

  /** hintAllowed */
  function Hinted(hints: Hints, chat: string, now: int): (Hints, bool) {
    if chat == "" then (hints, false)
    else
      var kept := RoomFor(hints, chat, now);
      if chat !in kept && |kept| >= HINT_CHATS then (kept, false)
      else
        var b := if chat in kept then kept[chat] else Bucket(HINTS, now);
        var (spent, allowed) := Spend(b, now, HINTS, HINT_INTERVAL);
        (kept[chat := spent], allowed)
  }

  /** There are never more than 256 buckets, and no chat can push out the bucket of
      another chat that used a hint within the last hundred seconds. */
  lemma HintsBounded(hints: Hints, chat: string, now: int, other: string)
    requires |hints| <= HINT_CHATS
    ensures |Hinted(hints, chat, now).0| <= HINT_CHATS
    ensures other in hints && other != chat && !Idle(hints[other], now) ==>
              other in Hinted(hints, chat, now).0 && Hinted(hints, chat, now).0[other] == hints[other]
  {
    hide Spend, Evicted, Idle;
    var kept := RoomFor(hints, chat, now);
    RoomMade(hints, chat, now, other);
    if chat != "" && (chat in kept || |kept| < HINT_CHATS) {
      var b := if chat in kept then kept[chat] else Bucket(HINTS, now);
      OneMore(kept, chat, Spend(b, now, HINTS, HINT_INTERVAL).0);
    }
  }

  /** A token is left, or an interval has passed since the last one was added. */
  lemma SpendExactly(b: Bucket, now: int, size: nat, interval: int)
    requires size > 0 && interval > 0
    ensures Spend(b, now, size, interval).1 <==> b.tokens > 0 || now - b.refilled >= interval
  {
    if now - b.refilled >= interval {
      assert (now - b.refilled) / interval >= 1;
    }
  }

  /** A chat gets a hint exactly if it has a bucket with a token, or there is a place for
      a bucket of its own: a free one, or that of a chat that has long been idle. */
  lemma HintedExactly(hints: Hints, chat: string, now: int)
    requires |hints| <= 256
    ensures var (after, granted) := Hinted(hints, chat, now);
            && (granted <==>
                && chat != ""
                && if chat in hints then hints[chat].tokens > 0 || now - hints[chat].refilled >= 10 * SECOND
                   else |hints| < 256 || exists id <- hints :: now - hints[id].refilled >= 100 * SECOND)
            && (granted ==> chat in after)
  {
    hide Spend;
    if chat in hints {
      SpendExactly(hints[chat], now, HINTS, HINT_INTERVAL);
    } else {
      SpendExactly(Bucket(HINTS, now), now, HINTS, HINT_INTERVAL);
      PlaceExactly(hints, now);
    }
  }

  lemma PlaceExactly(hints: Hints, now: int)
    ensures |Evicted(hints, now)| < |hints| <==> exists id <- hints :: now - hints[id].refilled >= 100 * SECOND
    ensures |Evicted(hints, now)| <= |hints|
  {
    var kept := Evicted(hints, now);
    assert hints.Keys == kept.Keys + (hints.Keys - kept.Keys);
    if exists id <- hints :: now - hints[id].refilled >= 100 * SECOND {
      var id :| id in hints && now - hints[id].refilled >= 100 * SECOND;
      assert id in hints.Keys - kept.Keys;
    } else {
      assert kept == hints;
    }
  }

  lemma OneMore(hints: Hints, chat: string, b: Bucket)
    ensures |hints[chat := b]| == |hints| + if chat in hints then 0 else 1
  {
    assert hints[chat := b].Keys == hints.Keys + {chat};
  }

  lemma RoomMade(hints: Hints, chat: string, now: int, other: string)
    requires |hints| <= HINT_CHATS
    ensures var kept := RoomFor(hints, chat, now);
            |kept| <= HINT_CHATS && (other in hints && !Idle(hints[other], now) ==>
                                     other in kept && kept[other] == hints[other])
  {
    hide Idle;
    var kept := RoomFor(hints, chat, now);
    assert hints.Keys == kept.Keys + (hints.Keys - kept.Keys);
  }

  /** A bucket that is dropped would be full when its chat comes back. */
  lemma EvictedWasFull(b: Bucket, now: int, later: int)
    requires Idle(b, now) && now <= later
    ensures Refill(b, later, HINTS, HINT_INTERVAL).tokens == HINTS
  {
    assert later - b.refilled >= HINTS * HINT_INTERVAL;
    assert (later - b.refilled) / HINT_INTERVAL >= HINTS;
  }

  // Is dropping it observable?

  /** `n` requests at one moment, with nothing to refill. */
  function Burst(at: int, n: nat): (r: seq<int>)
    ensures |r| == n && forall i :: 0 <= i < n ==> r[i] == at
  {
    if n == 0 then [] else Burst(at, n - 1) + [at]
  }

  lemma {:induction false} BurstGrants(b: Bucket, before: seq<int>, at: int, n: nat)
    requires var mid := After(b, before, HINTS, HINT_INTERVAL);
             mid.refilled <= at < mid.refilled + HINT_INTERVAL
    ensures var mid := After(b, before, HINTS, HINT_INTERVAL);
            var after := After(b, before + Burst(at, n), HINTS, HINT_INTERVAL);
            && after.refilled == mid.refilled && after.tokens == (if n <= mid.tokens then mid.tokens - n else 0)
            && Granted(b, before + Burst(at, n), HINTS, HINT_INTERVAL) ==
               Granted(b, before, HINTS, HINT_INTERVAL) + if n <= mid.tokens then n else mid.tokens
    decreases n
  {
    hide Spend;
    if n == 0 {
      assert before + Burst(at, 0) == before;
    } else {
      BurstGrants(b, before, at, n - 1);
      var times := before + Burst(at, n);
      assert times[..|times| - 1] == before + Burst(at, n - 1);
      SpendAgain(After(b, before + Burst(at, n - 1), HINTS, HINT_INTERVAL), at, HINTS, HINT_INTERVAL);
    }
  }

  /** What a bucket has after it was left alone: a token more for every interval, but no
      more than its size. */
  function Rested(b: Bucket, at: int, size: nat, interval: int): nat
    requires interval > 0 && b.refilled <= at
  {
    if b.tokens + (at - b.refilled) / interval < size then b.tokens + (at - b.refilled) / interval else size
  }

  /** Exactly that many of a burst of requests are granted, the first ones. */
  lemma {:induction false} BurstExactly(b: Bucket, at: int, n: nat, size: nat, interval: int)
    requires interval > 0 && b.refilled <= at && Within(b, size)
    ensures var full := Rested(b, at, size, interval);
            && Granted(b, Burst(at, n), size, interval) == (if n <= full then n else full)
            && (n > 0 ==> var after := After(b, Burst(at, n), size, interval);
                          after.tokens == (if n <= full then full - n else 0)
                          && after.refilled <= at < after.refilled + interval)
    decreases n
  {
    hide Spend, Rested;
    if n > 0 {
      BurstExactly(b, at, n - 1, size, interval);
      assert Burst(at, n)[..n - 1] == Burst(at, n - 1);
      if n == 1 {
        FirstOfBurst(b, at, size, interval);
      } else {
        SpendAgain(After(b, Burst(at, n - 1), size, interval), at, size, interval);
      }
    }
  }

  lemma FirstOfBurst(b: Bucket, at: int, size: nat, interval: int)
    requires interval > 0 && b.refilled <= at && Within(b, size)
    ensures var full, (spent, granted) := Rested(b, at, size, interval), Spend(b, at, size, interval);
            && (granted <==> full > 0) && spent.tokens == (if full > 0 then full - 1 else 0)
            && spent.refilled <= at < spent.refilled + interval
  {
    RefillMeaning(b, at, size, interval);
  }

  lemma SpendAgain(b: Bucket, at: int, size: nat, interval: int)
    requires b.refilled <= at < b.refilled + interval
    ensures Spend(b, at, size, interval) == if b.tokens == 0 then (b, false) else (b.(tokens := b.tokens - 1), true)
  {
    assert (at - b.refilled) / interval == 0;
  }

  lemma One(b: Bucket, before: seq<int>, at: int)
    ensures After(b, before + [at], HINTS, HINT_INTERVAL) == Spend(After(b, before, HINTS, HINT_INTERVAL), at, HINTS,
                                                                   HINT_INTERVAL).0
    ensures Granted(b, before + [at], HINTS, HINT_INTERVAL) ==
            Granted(b, before, HINTS, HINT_INTERVAL) + if Spend(After(b, before, HINTS, HINT_INTERVAL), at, HINTS,
                                                                HINT_INTERVAL).1 then 1 else 0
  {
    assert (before + [at])[..|before|] == before;
  }

  /** Used when its chat comes back, again just before the second refill of a new
      bucket, and ten times at that refill. */
  function Probe(at: int): seq<int> {
    [at] + [at + 2 * HINT_INTERVAL - 1] + Burst(at + 2 * HINT_INTERVAL, HINTS)
  }

  lemma ProbeNew(at: int)
    ensures Granted(Bucket(HINTS, at), Probe(at), HINTS, HINT_INTERVAL) == 12
  {
    var b := Bucket(HINTS, at);
    One(b, [], at);
    assert [] + [at] == [at];
    assert After(b, [at], HINTS, HINT_INTERVAL) == Bucket(9, at);
    One(b, [at], at + 2 * HINT_INTERVAL - 1);
    assert (2 * HINT_INTERVAL - 1) / HINT_INTERVAL == 1;
    var two := [at] + [at + 2 * HINT_INTERVAL - 1];
    assert After(b, two, HINTS, HINT_INTERVAL) == Bucket(9, at + HINT_INTERVAL);
    var last := at + 2 * HINT_INTERVAL;
    One(b, two, last);
    assert (last - (at + HINT_INTERVAL)) / HINT_INTERVAL == 1;
    BurstGrants(b, two + [last], last, 9);
    assert two + [last] + Burst(last, 9) == Probe(at) by {
      BurstFront(last, 9);
    }
  }

  lemma {:induction false} BurstFront(at: int, n: nat)
    ensures [at] + Burst(at, n) == Burst(at, n + 1)
    decreases n
  {
  }

  lemma ProbeKept(b: Bucket, at: int, phase: int)
    requires b.tokens <= HINTS && Idle(b, at) && phase == (at - b.refilled) % HINT_INTERVAL && phase > 0
    ensures Granted(b, Probe(at), HINTS, HINT_INTERVAL) == 11
  {
    hide Spend, Refill, Replenished;
    One(b, [], at);
    assert [] + [at] == [at];
    FullSpend(b, at, phase);
    var second := at + 2 * HINT_INTERVAL - 1;
    One(b, [at], second);
    LostRefill(Bucket(9, at - phase), second, phase);
    var two := [at] + [second];
    BurstGrants(b, two, at + 2 * HINT_INTERVAL, HINTS);
  }

  lemma FullSpend(b: Bucket, at: int, phase: int)
    requires b.tokens <= HINTS && Idle(b, at) && phase == (at - b.refilled) % HINT_INTERVAL
    ensures Spend(b, at, HINTS, HINT_INTERVAL) == (Bucket(9, at - phase), true)
  {
    EvictedWasFull(b, at, at);
    RefillMeaning(b, at, HINTS, HINT_INTERVAL);
    var k := (at - b.refilled) / HINT_INTERVAL;
    assert at - b.refilled == k * HINT_INTERVAL + phase;
  }

  /** Two refills came due, and only one of them found room. */
  lemma LostRefill(b: Bucket, at: int, phase: int)
    requires b.tokens == 9 && 0 < phase < HINT_INTERVAL && at == b.refilled + phase + 2 * HINT_INTERVAL - 1
    ensures Spend(b, at, HINTS, HINT_INTERVAL) == (Bucket(9, b.refilled + 2 * HINT_INTERVAL), true)
  {
    assert (at - b.refilled) / HINT_INTERVAL == 2;
  }

  /** Dropping an idle bucket cannot be told from keeping it if and only if the chat
      comes back a whole number of refill intervals after the last refill. Otherwise
      the new bucket's refills come later in each interval, and it can grant a hint
      that the kept one would have refused. */
  lemma EvictionUnobservable(b: Bucket, at: int)
    requires b.tokens <= HINTS && Idle(b, at)
    ensures (at - b.refilled) % HINT_INTERVAL == 0 <==>
            forall times: seq<int> :: times != [] && times[0] == at && Sorted(times) ==>
              Granted(b, times, HINTS, HINT_INTERVAL) == Granted(Bucket(HINTS, at), times, HINTS, HINT_INTERVAL)
  {
    var phase := (at - b.refilled) % HINT_INTERVAL;
    if phase == 0 {
      forall times: seq<int> | times != [] && times[0] == at && Sorted(times)
        ensures Granted(b, times, HINTS, HINT_INTERVAL) == Granted(Bucket(HINTS, at), times, HINTS, HINT_INTERVAL)
      {
        Aligned(b, at);
        RefilledFirst(b, times, HINTS, HINT_INTERVAL);
      }
    } else {
      ProbeNew(at);
      ProbeKept(b, at, phase);
      assert Probe(at)[0] == at && Sorted(Probe(at));
    }
  }

  lemma Aligned(b: Bucket, at: int)
    requires b.tokens <= HINTS && Idle(b, at) && (at - b.refilled) % HINT_INTERVAL == 0
    ensures Refill(b, at, HINTS, HINT_INTERVAL) == Bucket(HINTS, at)
  {
    EvictedWasFull(b, at, at);
    var k := (at - b.refilled) / HINT_INTERVAL;
    assert at - b.refilled == k * HINT_INTERVAL;
  }

  // How far the two can drift apart

  /** The kept and the new bucket after the same requests: their refills alternate,
      `phase` apart, and the one that refilled last is never a token behind. */
  ghost predicate Twins(kept: Bucket, renewed: Bucket, phase: int) {
    && 0 <= phase < HINT_INTERVAL && kept.tokens <= HINTS && renewed.tokens <= HINTS
    && ((renewed.refilled == kept.refilled + phase && kept.tokens <= renewed.tokens <= kept.tokens + 1)
        || (renewed.refilled == kept.refilled + phase - HINT_INTERVAL
            && renewed.tokens <= kept.tokens <= renewed.tokens + 1))
  }

  /** Between two requests one of the two refills at most once more often. */
  lemma TwinsCounts(kept: Bucket, renewed: Bucket, phase: int, at: int)
    requires Twins(kept, renewed, phase) && kept.refilled <= at && renewed.refilled <= at
    ensures var k: int, n: int := Replenished(kept, at, HINT_INTERVAL), Replenished(renewed, at, HINT_INTERVAL);
            && (renewed.refilled == kept.refilled + phase ==> k == n || k == n + 1)
            && (renewed.refilled == kept.refilled + phase - HINT_INTERVAL ==> k == n - 1 || k == n)
  {
    RefillMeaning(kept, at, HINTS, HINT_INTERVAL);
    RefillMeaning(renewed, at, HINTS, HINT_INTERVAL);
    var k: int, n: int := Replenished(kept, at, HINT_INTERVAL), Replenished(renewed, at, HINT_INTERVAL);
    hide Refill, Replenished;
    Distribute(k - n, n, HINT_INTERVAL);
    Distribute(1, k - n, HINT_INTERVAL);
    OneOrTheOther(k - n);
    OneOrTheOther(k - n + 1);
  }

  lemma TwinsRefill(kept: Bucket, renewed: Bucket, phase: int, at: int)
    requires Twins(kept, renewed, phase) && kept.refilled <= at && renewed.refilled <= at
    ensures Twins(Refill(kept, at, HINTS, HINT_INTERVAL), Refill(renewed, at, HINTS, HINT_INTERVAL), phase)
    ensures Refill(kept, at, HINTS, HINT_INTERVAL).refilled <= at
            && Refill(renewed, at, HINTS, HINT_INTERVAL).refilled <= at
  {
    RefillMeaning(kept, at, HINTS, HINT_INTERVAL);
    RefillMeaning(renewed, at, HINTS, HINT_INTERVAL);
    RefillTokens(kept, at);
    RefillTokens(renewed, at);
    TwinsCounts(kept, renewed, phase, at);
    hide Refill, Replenished;
    var n: int := Replenished(renewed, at, HINT_INTERVAL);
    Distribute(n, 1, HINT_INTERVAL);
    Distribute(n, -1, HINT_INTERVAL);
  }

  lemma OneOrTheOther(x: int)
    ensures -HINT_INTERVAL < x * HINT_INTERVAL < 2 * HINT_INTERVAL ==> x == 0 || x == 1
  {
  }

  lemma RefillTokens(b: Bucket, at: int)
    requires b.tokens <= HINTS
    ensures var k := Replenished(b, at, HINT_INTERVAL);
            Refill(b, at, HINTS, HINT_INTERVAL).tokens == if b.tokens + k < HINTS then b.tokens + k else HINTS
  {
  }

  lemma TwinsSpend(kept: Bucket, renewed: Bucket, phase: int, at: int)
    requires Twins(kept, renewed, phase) && kept.refilled <= at && renewed.refilled <= at
    ensures var k := Spend(kept, at, HINTS, HINT_INTERVAL).0;
            var n := Spend(renewed, at, HINTS, HINT_INTERVAL).0;
            Twins(k, n, phase) && k.refilled <= at && n.refilled <= at
  {
    hide Refill;
    TwinsRefill(kept, renewed, phase, at);
  }

  /** Through any later requests the new bucket and the one that was dropped are
      never more than one token apart. */
  lemma {:induction false} NeverFarApart(b: Bucket, at: int, times: seq<int>)
    requires b.tokens <= HINTS && Idle(b, at) && times != [] && times[0] == at && Sorted(times)
    ensures var kept := After(b, times, HINTS, HINT_INTERVAL);
            var renewed := After(Bucket(HINTS, at), times, HINTS, HINT_INTERVAL);
            && -1 <= renewed.tokens as int - kept.tokens as int <= 1
            && Twins(kept, renewed, (at - b.refilled) % HINT_INTERVAL)
            && kept.refilled <= times[|times| - 1] && renewed.refilled <= times[|times| - 1]
    decreases |times|
  {
    hide Spend, Refill, Replenished;
    var front, last := times[..|times| - 1], |times| - 1;
    if front == [] {
      FullSpend(b, at, (at - b.refilled) % HINT_INTERVAL);
      SpendAgain(Bucket(HINTS, at), at, HINTS, HINT_INTERVAL);
    } else {
      NeverFarApart(b, at, front);
      assert times[last - 1] <= times[last];
      TwinsSpend(After(b, front, HINTS, HINT_INTERVAL), After(Bucket(HINTS, at), front, HINTS, HINT_INTERVAL),
                 (at - b.refilled) % HINT_INTERVAL, times[last]);
    }
  }

  /** The budgets of one platform. */
  class PairingPlatform {
    var tokens: nat
    var refilled: int
    var hints: Hints

    /** The first time a platform is ready; reconnecting never comes here. */
    constructor (now: int)
      ensures tokens == ATTEMPTS && refilled == now && hints == map[]
    {
      tokens, refilled, hints := ATTEMPTS, now, map[];
    }

    /** The charge for one attempt, in authorize. */
    method ChargeAttempt(now: int) returns (charged: bool)
      modifies this`tokens, this`refilled
      ensures (Bucket(tokens, refilled), charged) == Spend(Bucket(old(tokens), old(refilled)), now, ATTEMPTS,
                                                           ATTEMPT_INTERVAL)
      ensures charged <==> old(tokens) > 0 || now - old(refilled) >= 2 * SECOND
    {
      SpendExactly(Bucket(tokens, refilled), now, ATTEMPTS, ATTEMPT_INTERVAL);
      // Duration division truncates towards zero.
      var replenished := if now < refilled then -((refilled - now) / ATTEMPT_INTERVAL)
        else (now - refilled) / ATTEMPT_INTERVAL;
      if replenished > 0 {
        tokens := if tokens + replenished < ATTEMPTS then tokens + replenished else ATTEMPTS;
        refilled := refilled + replenished * ATTEMPT_INTERVAL;
      }
      if tokens == 0 {
        return false;
      }
      tokens := tokens - 1;
      return true;
    }

    /** hintAllowed */
    method HintAllowed(chat: string, now: int) returns (allowed: bool)
      modifies this`hints
      ensures (hints, allowed) == Hinted(old(hints), chat, now)
    {
      if chat == "" {
        return false;
      }
      if chat !in hints {
        if |hints| >= HINT_CHATS {
          EvictIdle(now);
          if |hints| >= HINT_CHATS {
            return false;
          }
        }
        hints := hints[chat := Bucket(HINTS, now)];
      }
      var h, granted := Spend(hints[chat], now, HINTS, HINT_INTERVAL).0,
        Spend(hints[chat], now, HINTS, HINT_INTERVAL).1;
      ghost var kept := RoomFor(old(hints), chat, now);
      assert kept[chat := hints[chat]][chat := h] == kept[chat := h];
      hints := hints[chat := h];
      return granted;
    }

    /** Deleting while ranging over the buckets, in whatever order. */
    method EvictIdle(now: int)
      modifies this`hints
      ensures hints == Evicted(old(hints), now)
    {
      var left := hints.Keys;
      while left != {}
        invariant left <= hints.Keys
        invariant forall id :: id in hints <==> id in old(hints) && (id in left || !Idle(old(hints)[id], now))
        invariant forall id <- hints :: hints[id] == old(hints)[id]
        decreases left
      {
        var id: string :| id in left;
        left := left - {id};
        if Idle(hints[id], now) {
          hints := hints - {id};
        }
      }
    }
  }
}
