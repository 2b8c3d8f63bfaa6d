/** An image that is sent in order arrives (internal/gateway/process_images.go:331-462). */
module ImageArrival {
  import opened ImageReceiver

  /** A chunk reaches the receiver, or something happens that no transfer notices:
      an image is closed, or another receiver takes or returns bytes. */
  datatype Event = Arrives(chunk: Chunk, session: string, disk: Disk) | Elsewhere

  datatype Answer = Answer(outcome: Outcome, n: nat)

  ghost predicate Step(sha: string -> string, was: View, e: Event, a: Answer, now: View) {
    match e
    case Arrives(p, session, disk) => Accepts(sha, was, p, session, disk, a.outcome, a.n, now)
    case Elsewhere => now.entries == was.entries && now.expected == was.expected && now.seen == was.seen
  }

  /** The states of a receiver, the events between them and its answers. */
  ghost predicate Run(sha: string -> string, views: seq<View>, events: seq<Event>, answers: seq<Answer>) {
    && |views| == |events| + 1 && |answers| == |events|
    && (forall v <- views :: TransfersOK(v.entries, v.expected, v.seen))
    && forall i :: 0 <= i < |events| ==> Step(sha, views[i], events[i], answers[i], views[i + 1])
  }

  predicate Own(e: Event, key: Key) {
    e.Arrives? && KeyOf(e.chunk, e.session) == key
  }

  /** The chunks of one transfer, in order. */
  function OwnChunks(events: seq<Event>, key: Key): seq<Chunk> {
    if events == [] then []
    else
      var e := events[|events| - 1];
      OwnChunks(events[..|events| - 1], key) + if Own(e, key) then [e.chunk] else []
  }

  /** How many of the transfer's chunks come before event `i`. */
  function Before(events: seq<Event>, key: Key, i: nat): nat
    requires i <= |events|
  {
    |OwnChunks(events[..i], key)|
  }

  /** Non-empty pieces within the length limit, each at its offset, only the final one
      marked as the last, that together are `bytes`. */
  ghost predicate Splits(chunks: seq<Chunk>, m: Meta, bytes: string) {
    && chunks != []
    && (forall p <- chunks :: p.data.Some? && p.data.value != "" && !p.tooLong && SameImage(p, m))
    && (forall k :: 0 <= k < |chunks| ==> chunks[k].offset == |Joined(chunks[..k])|)
    && (forall k :: 0 <= k < |chunks| ==> (chunks[k].last <==> k == |chunks| - 1))
    && Joined(chunks) == bytes
  }

  /** A summary has announced this image and nothing of it has arrived. */
  ghost predicate AnnouncedAs(v: View, key: Key, m: Meta) {
    key in v.entries && v.entries[key] == Entry(m, "", false, false)
  }

  /** The image was asked for again by its reference, and its first chunk will describe it. */
  ghost predicate AskedFor(v: View, key: Key, m: Meta) {
    && key !in v.entries && key.reference == m.reference && key.agent == ""
    && m.reference in v.expected && v.expected[m.reference] == key
    && DigestOf(m.reference, m.mime) == Some(m.sha256) && Acceptable(m)
  }

  /** Nothing has ended the transfer or its call. */
  ghost predicate NotEnded(v: View, key: Key, chunks: seq<Chunk>) {
    key !in v.seen && forall p <- chunks :: Ender(p, key.session) !in v.seen
  }

  /** Chunks of other transfers are chunks of other transfers: none of them ends the
      call of this one. */
  ghost predicate OthersApart(events: seq<Event>, key: Key, chunks: seq<Chunk>) {
    forall e <- events, p <- chunks ::
      e.Arrives? && !Own(e, key) ==> KeyOf(e.chunk, e.session) != Ender(p, key.session)
  }

  /** The first chunk finds a place, room and a new file; all are written, and the last
      one can be closed. */
  ghost predicate Working(views: seq<View>, events: seq<Event>, key: Key, m: Meta, requested: bool)
    requires |views| == |events| + 1
  {
    forall i :: 0 <= i < |events| && Own(events[i], key) ==>
                  && events[i].disk.written && (events[i].chunk.last ==> events[i].disk.closed)
                  && (Before(events, key, i) == 0 ==>
                        && views[i].spool + m.size <= MAX_SPOOL && events[i].disk.created
                        && (requested ==> |views[i].entries| < MAX_ENTRIES
                                          && events[i].chunk.call == ""))
  }

  /** A chunk is kept, or is the last one and delivers the image, whose identity is then
      terminal. */
  ghost predicate Taken(was: View, last: bool, a: Answer, now: View, image: Image) {
    if last then
      && a.outcome == Delivered && a.n !in was.images && now.images == was.images[a.n := image]
      && image.key !in now.entries && image.key in now.seen
    else a.outcome == Kept && now.images == was.images
  }

  /** What is kept of the transfer when `k` of its chunks have come. */
  ghost predicate Reached(v: View, key: Key, m: Meta, requested: bool, chunks: seq<Chunk>, k: nat)
    requires k <= |chunks| && forall p <- chunks :: p.data.Some?
  {
    k < |chunks| ==>
      && NotEnded(v, key, chunks)
      && if k > 0 then key in v.entries && v.entries[key] == Entry(m, Joined(chunks[..k]), true, requested)
         else if requested then AskedFor(v, key, m) else AnnouncedAs(v, key, m)
  }

  lemma {:induction false} OwnChunksPrefix(events: seq<Event>, key: Key, i: nat)
    requires i <= |events|
    ensures OwnChunks(events[..i], key) <= OwnChunks(events, key)
    decreases |events| - i
  {
    if i < |events| {
      OwnChunksPrefix(events, key, i + 1);
      assert events[..i + 1][..i] == events[..i];
    } else {
      assert events[..i] == events;
    }
  }

  lemma OwnChunksNext(events: seq<Event>, key: Key, i: nat)
    requires i < |events|
    ensures var k, chunks := Before(events, key, i), OwnChunks(events, key);
            k <= Before(events, key, i + 1) <= |chunks| && chunks[..k] == OwnChunks(events[..i], key)
            && if Own(events[i], key) then k < |chunks| && events[i].chunk == chunks[k]
               && Before(events, key, i + 1) == k + 1
               else Before(events, key, i + 1) == k
  {
    OwnChunksPrefix(events, key, i);
    OwnChunksPrefix(events, key, i + 1);
    assert events[..i + 1][..i] == events[..i];
  }

  lemma {:induction false} JoinedGrows(parts: seq<Chunk>, k: nat)
    requires k <= |parts| && forall p <- parts :: p.data.Some?
    ensures |Joined(parts[..k])| <= |Joined(parts)|
    ensures k < |parts| ==> Joined(parts[..k + 1]) == Joined(parts[..k]) + parts[k].data.value
    decreases |parts| - k
  {
    if k < |parts| {
      assert parts[..k + 1][..k] == parts[..k];
      JoinedGrows(parts, k + 1);
    } else {
      assert parts[..k] == parts;
    }
  }

  /** A piece that is not the last leaves bytes to come; the last one completes them. */
  lemma PieceFits(chunks: seq<Chunk>, m: Meta, bytes: string, k: nat)
    requires Splits(chunks, m, bytes) && |bytes| == m.size && k < |chunks|
    ensures Continues(chunks[k], m, Joined(chunks[..k]))
    ensures Joined(chunks[..k + 1]) == Joined(chunks[..k]) + chunks[k].data.value
    ensures if k < |chunks| - 1 then |Joined(chunks[..k + 1])| < m.size else Joined(chunks[..k + 1]) == bytes
  {
    JoinedGrows(chunks, k);
    JoinedGrows(chunks, k + 1);
    if k < |chunks| - 1 {
      JoinedGrows(chunks, k + 2);
    } else {
      assert chunks[..k + 1] == chunks;
    }
  }

  /** The state of the transfer that its next chunk finds. */
  lemma Found(sha: string -> string, v: View, p: Chunk, session: string, key: Key, m: Meta, requested: bool,
              chunks: seq<Chunk>, bytes: string, k: nat)
    requires Splits(chunks, m, bytes) && k < |chunks| && p == chunks[k] && KeyOf(p, session) == key
    requires Reached(v, key, m, requested, chunks, k)
    requires k == 0 && requested ==> |v.entries| < MAX_ENTRIES && p.call == ""
    ensures Current(p, key, v.entries, v.expected)
            == Some(Entry(m, Joined(chunks[..k]), k > 0, requested))
  {
    hide DigestOf, Acceptable, NotEnded;
    assert SameImage(p, m);
    if k == 0 {
      assert chunks[..0] == [];
      if requested {
        assert p.offset == |Joined(chunks[..0])| == 0;
        assert MetaOf(p, m.sha256) == m;
      }
    }
  }

  /** The transfer takes its next chunk, and its last one delivers the image. */
  lemma OwnStep(sha: string -> string, v: View, p: Chunk, session: string, disk: Disk, a: Answer, w: View, key: Key,
                m: Meta, requested: bool, chunks: seq<Chunk>, bytes: string, k: nat)
    requires Splits(chunks, m, bytes) && |bytes| == m.size && sha(bytes) == m.sha256
    requires k < |chunks| && p == chunks[k] && KeyOf(p, session) == key
    requires Reached(v, key, m, requested, chunks, k)
    requires Accepts(sha, v, p, session, disk, a.outcome, a.n, w)
    requires disk.written && (p.last ==> disk.closed)
    requires k == 0 ==> v.spool + m.size <= MAX_SPOOL && disk.created
                        && (requested ==> |v.entries| < MAX_ENTRIES && p.call == "")
    ensures Reached(w, key, m, requested, chunks, k + 1)
    ensures Taken(v, k == |chunks| - 1, a, w, Image(key, m, bytes))
  {
    hide DigestOf, Acceptable, Continues, Current, Joined, AskedFor, AnnouncedAs;
    Found(sha, v, p, session, key, m, requested, chunks, bytes, k);
    PieceFits(chunks, m, bytes, k);
    assert Ender(p, key.session) !in v.seen;
    hide Splits;
  }

  /** A transfer on request is under the key that its reference is asked for with. */
  lemma CurrentIsSound(v: View, p: Chunk, key: Key)
    requires TransfersOK(v.entries, v.expected, v.seen) && key.reference == p.reference
    requires Current(p, key, v.entries, v.expected).Some?
    ensures var e := Current(p, key, v.entries, v.expected).value;
            && key.reference != ""
            && (e.refetch ==> key.reference in v.expected && v.expected[key.reference] == key)
  {
    hide DigestOf;
    var e := Current(p, key, v.entries, v.expected).value;
    assert Acceptable(e.meta) && key.reference == e.meta.reference;
    assert PREFIX + e.meta.sha256 + "." <= e.meta.reference;
    hide Acceptable;
  }

  lemma AfterApart(outcome: Outcome, n: nat, e: Entry, p: Chunk, own: Key, was: View, now: View, key: Key)
    requires After(outcome, n, e, p, own, was.entries, now.entries, was.expected, now.expected, was.images, now.images)
    requires e.refetch ==> own.reference in was.expected && was.expected[own.reference] == own
    requires own != key
    ensures key in now.entries <==> key in was.entries
    ensures key in was.entries ==> now.entries[key] == was.entries[key]
    ensures key.reference in was.expected && was.expected[key.reference] == key ==>
              key.reference in now.expected && now.expected[key.reference] == key
  {
  }

  /** What a chunk of one transfer leaves of another. */
  lemma Apart(sha: string -> string, v: View, p: Chunk, session: string, disk: Disk, a: Answer, w: View, key: Key)
    requires Accepts(sha, v, p, session, disk, a.outcome, a.n, w) && KeyOf(p, session) != key
    requires TransfersOK(v.entries, v.expected, v.seen)
    ensures key in w.entries <==> key in v.entries
    ensures key in v.entries ==> w.entries[key] == v.entries[key]
    ensures key.reference in v.expected && v.expected[key.reference] == key ==>
              key.reference in w.expected && w.expected[key.reference] == key
  {
    hide Judged, Acceptable, DigestOf, TransfersOK, Current, Continues, KeyOf, EndedBy, Reserved, After;
    var own := KeyOf(p, session);
    var current := Current(p, own, v.entries, v.expected);
    if own !in v.seen && Ender(p, session) !in v.seen && current.Some? {
      KeyOfReference(p, session);
      CurrentIsSound(v, p, own);
      AfterApart(a.outcome, a.n, current.value, p, own, v, w, key);
    }
  }

  lemma KeyOfReference(p: Chunk, session: string)
    ensures KeyOf(p, session).reference == p.reference && KeyOf(p, session).session == session
  {
  }

  /** A chunk makes nothing terminal but its own identity and, once an image on request
      has arrived, the reference that was asked for. */
  lemma Ended(sha: string -> string, v: View, p: Chunk, session: string, disk: Disk, a: Answer, w: View, t: Key)
    requires Accepts(sha, v, p, session, disk, a.outcome, a.n, w) && TransfersOK(v.entries, v.expected, v.seen)
    requires t in w.seen && t !in v.seen && t != KeyOf(p, session)
    ensures t.reference != "" && t.call == "" && t.reference in v.expected
            && v.expected[t.reference] == KeyOf(p, session)
  {
    var own := KeyOf(p, session);
    if Current(p, own, v.entries, v.expected).Some? {
      CurrentIsSound(v, p, own);
    }
    hide Judged, Acceptable, DigestOf, TransfersOK, Current, Continues, KeyOf, After, Reserved;
  }

  lemma StaysOpen(sha: string -> string, v: View, p: Chunk, session: string, disk: Disk, a: Answer, w: View, key: Key,
                  requested: bool, chunks: seq<Chunk>)
    requires Accepts(sha, v, p, session, disk, a.outcome, a.n, w) && TransfersOK(v.entries, v.expected, v.seen)
    requires KeyOf(p, session) != key && forall q <- chunks :: KeyOf(p, session) != Ender(q, key.session)
    requires if requested then key.reference in v.expected && v.expected[key.reference] == key else key.call != ""
    requires NotEnded(v, key, chunks)
    ensures NotEnded(w, key, chunks)
  {
    if key in w.seen {
      Ended(sha, v, p, session, disk, a, w, key);
    }
    forall q <- chunks ensures Ender(q, key.session) !in w.seen {
      if Ender(q, key.session) in w.seen {
        Ended(sha, v, p, session, disk, a, w, Ender(q, key.session));
      }
    }
    hide *;
  }

  /** A chunk of another transfer, or an event elsewhere, leaves this one as it is. */
  lemma OtherStep(sha: string -> string, v: View, e: Event, a: Answer, w: View, key: Key, m: Meta, requested: bool,
                  chunks: seq<Chunk>, k: nat)
    requires k < |chunks| && forall p <- chunks :: p.data.Some?
    requires Step(sha, v, e, a, w) && !Own(e, key) && TransfersOK(v.entries, v.expected, v.seen)
    requires forall p <- chunks :: e.Arrives? ==> KeyOf(e.chunk, e.session) != Ender(p, key.session)
    requires Reached(v, key, m, requested, chunks, k)
    ensures Reached(w, key, m, requested, chunks, k)
  {
    OnRequest(v, key, m, requested, chunks, k);
    if e.Arrives? {
      Apart(sha, v, e.chunk, e.session, e.disk, a, w, key);
      StaysOpen(sha, v, e.chunk, e.session, e.disk, a, w, key, requested, chunks);
    }
    hide DigestOf, Acceptable, Accepts, TransfersOK, Joined, KeyOf;
  }

  lemma OnRequest(v: View, key: Key, m: Meta, requested: bool, chunks: seq<Chunk>, k: nat)
    requires k < |chunks| && (forall p <- chunks :: p.data.Some?) && Reached(v, key, m, requested, chunks, k)
    requires TransfersOK(v.entries, v.expected, v.seen)
    ensures if requested then key.reference in v.expected && v.expected[key.reference] == key else key.call != ""
  {
    hide DigestOf, Acceptable, Joined, NotEnded;
  }

  /** An image that was announced or asked for, the events around it, and what they need. */
  ghost predicate Sent(sha: string -> string, views: seq<View>, events: seq<Event>, answers: seq<Answer>, key: Key,
                       m: Meta, requested: bool, bytes: string) {
    var chunks := OwnChunks(events, key);
    && Run(sha, views, events, answers) && Splits(chunks, m, bytes) && |bytes| == m.size && sha(bytes) == m.sha256
    && (if requested then AskedFor(views[0], key, m) else AnnouncedAs(views[0], key, m))
    && NotEnded(views[0], key, chunks) && OthersApart(events, key, chunks)
    && Working(views, events, key, m, requested)
  }

  lemma {:induction false} ReachedAt(sha: string -> string, views: seq<View>, events: seq<Event>, answers: seq<Answer>,
                                     key: Key, m: Meta, requested: bool, bytes: string, i: nat)
    requires Sent(sha, views, events, answers, key, m, requested, bytes) && i <= |events|
    ensures var chunks := OwnChunks(events, key);
            && (forall p <- chunks :: p.data.Some?) && Before(events, key, i) <= |chunks|
            && Reached(views[i], key, m, requested, chunks, Before(events, key, i))
  {
    hide AskedFor, AnnouncedAs, NotEnded, Step, TransfersOK;
    var chunks := OwnChunks(events, key);
    OwnChunksPrefix(events, key, i);
    if i == 0 {
      assert events[..0] == [];
    } else {
      ReachedAt(sha, views, events, answers, key, m, requested, bytes, i - 1);
      EventKeeps(sha, views, events, answers, key, m, requested, bytes, i - 1);
    }
  }

  /** One event of the run: an own chunk moves the transfer on, any other leaves it. */
  lemma EventKeeps(sha: string -> string, views: seq<View>, events: seq<Event>, answers: seq<Answer>, key: Key, m: Meta,
                   requested: bool, bytes: string, i: nat)
    requires Sent(sha, views, events, answers, key, m, requested, bytes) && i < |events|
    requires var chunks := OwnChunks(events, key);
             && (forall p <- chunks :: p.data.Some?) && Before(events, key, i) <= |chunks|
             && Reached(views[i], key, m, requested, chunks, Before(events, key, i))
    ensures var chunks := OwnChunks(events, key);
            Before(events, key, i + 1) <= |chunks|
            && Reached(views[i + 1], key, m, requested, chunks, Before(events, key, i + 1))
    ensures Own(events[i], key) ==>
              var chunks, k, a := OwnChunks(events, key), Before(events, key, i), answers[i];
              k < |chunks| && Taken(views[i], k == |chunks| - 1, a, views[i + 1], Image(key, m, bytes))
  {
    hide AskedFor, AnnouncedAs, NotEnded, TransfersOK, Accepts, OwnChunks, Reached;
    var chunks, k := OwnChunks(events, key), Before(events, key, i);
    OwnChunksNext(events, key, i);
    assert Step(sha, views[i], events[i], answers[i], views[i + 1]);
    if Own(events[i], key) {
      KeyOfReference(events[i].chunk, events[i].session);
      OwnStep(sha, views[i], events[i].chunk, events[i].session, events[i].disk, answers[i], views[i + 1], key, m,
              requested, chunks, bytes, k);
    } else if k < |chunks| {
      OtherStep(sha, views[i], events[i], answers[i], views[i + 1], key, m, requested, chunks, k);
    } else {
      NothingToCome(views[i + 1], key, m, requested, chunks, k);
    }
  }

  lemma NothingToCome(v: View, key: Key, m: Meta, requested: bool, chunks: seq<Chunk>, k: nat)
    requires k == |chunks| && forall p <- chunks :: p.data.Some?
    ensures Reached(v, key, m, requested, chunks, k)
  {
  }

  lemma SentChunks(sha: string -> string, views: seq<View>, events: seq<Event>, answers: seq<Answer>, key: Key, m: Meta,
                   requested: bool, bytes: string)
    requires Sent(sha, views, events, answers, key, m, requested, bytes)
    ensures var chunks := OwnChunks(events, key);
            chunks != [] && chunks[|chunks| - 1].last && forall p <- chunks :: p.data.Some?
    ensures |views| == |events| + 1 && |answers| == |events|
    ensures forall i :: 0 <= i < |events| && Own(events[i], key) ==> events[i].Arrives?
  {
    hide AskedFor, AnnouncedAs, NotEnded, TransfersOK, Step, Joined, Working, OwnChunks;
  }

  /** Every chunk comes with some event. */
  lemma {:induction false} Arrival(events: seq<Event>, key: Key, k: nat) returns (i: nat)
    requires k < |OwnChunks(events, key)|
    ensures i < |events| && Own(events[i], key) && events[i].chunk == OwnChunks(events, key)[k]
  {
    var n := |events| - 1;
    if k < |OwnChunks(events[..n], key)| {
      i := Arrival(events[..n], key, k);
    } else {
      i := n;
    }
  }

  lemma KeptAt(sha: string -> string, views: seq<View>, events: seq<Event>, answers: seq<Answer>, key: Key, m: Meta,
               requested: bool, bytes: string, i: nat)
    requires Sent(sha, views, events, answers, key, m, requested, bytes) && i <= |events|
    requires 0 < Before(events, key, i) < |OwnChunks(events, key)|
    ensures forall p <- OwnChunks(events, key) :: p.data.Some?
    ensures key in views[i].entries
            && views[i].entries[key] == Entry(m, Joined(OwnChunks(events, key)[..Before(events, key, i)]), true,
                                              requested)
  {
    hide Splits, AskedFor, AnnouncedAs, NotEnded, TransfersOK, Step, Joined, Working, OthersApart, OwnChunks;
    ReachedAt(sha, views, events, answers, key, m, requested, bytes, i);
    OwnChunksPrefix(events, key, i);
  }

  lemma AnsweredAt(sha: string -> string, views: seq<View>, events: seq<Event>, answers: seq<Answer>, key: Key, m: Meta,
                   requested: bool, bytes: string, i: nat)
    requires Sent(sha, views, events, answers, key, m, requested, bytes) && i < |events| && Own(events[i], key)
    ensures Taken(views[i], events[i].chunk.last, answers[i], views[i + 1], Image(key, m, bytes))
  {
    hide AskedFor, AnnouncedAs, NotEnded, TransfersOK, Step, Joined, Working, OthersApart, OwnChunks, Reached;
    ReachedAt(sha, views, events, answers, key, m, requested, bytes, i);
    EventKeeps(sha, views, events, answers, key, m, requested, bytes, i);
    OwnChunksNext(events, key, i);
  }

  /** An announced or requested image arrives: each of its chunks but the last is kept
      with those before it, and the last one delivers exactly the bytes that were split,
      whatever chunks of other transfers come between. */
  lemma ImageArrives(sha: string -> string, views: seq<View>, events: seq<Event>, answers: seq<Answer>, key: Key,
                     m: Meta, requested: bool, bytes: string)
    requires Sent(sha, views, events, answers, key, m, requested, bytes)
    ensures forall p <- OwnChunks(events, key) :: p.data.Some?
    ensures forall i :: 0 <= i <= |events| && 0 < Before(events, key, i) < |OwnChunks(events, key)| ==>
                          key in views[i].entries && views[i].entries[key]
                            == Entry(m, Joined(OwnChunks(events, key)[..Before(events, key, i)]), true, requested)
    ensures forall i :: 0 <= i < |events| && Own(events[i], key) ==>
                          Taken(views[i], events[i].chunk.last, answers[i], views[i + 1], Image(key, m, bytes))
    ensures exists i :: 0 <= i < |events| && Own(events[i], key) && events[i].chunk.last
  {
    hide Sent, OwnChunks, Before, Joined;
    var chunks := OwnChunks(events, key);
    SentChunks(sha, views, events, answers, key, m, requested, bytes);
    forall i | 0 <= i <= |events| && 0 < Before(events, key, i) < |chunks|
      ensures key in views[i].entries
              && views[i].entries[key] == Entry(m, Joined(OwnChunks(events, key)[..Before(events, key, i)]), true,
                                                requested)
    {
      KeptAt(sha, views, events, answers, key, m, requested, bytes, i);
    }
    forall i | 0 <= i < |events| && Own(events[i], key)
      ensures Taken(views[i], events[i].chunk.last, answers[i], views[i + 1], Image(key, m, bytes))
    {
      AnsweredAt(sha, views, events, answers, key, m, requested, bytes, i);
    }
    var last := Arrival(events, key, |chunks| - 1);
    assert Own(events[last], key) && events[last].chunk.last;
  }

  /** An image as a summary may describe it. */
  predicate Described(m: Meta) {
    && |m.sha256| == 64
    && (forall c <- m.sha256 :: '0' <= c <= '9' || 'a' <= c <= 'f' || 'A' <= c <= 'F')
    && 0 < m.size <= 32 * 1048576 && 0 < m.width <= 12000 && 0 < m.height <= 12000
    && m.width * m.height <= 36_000_000 && m.mime in {"image/png", "image/jpeg", "image/webp"}
    && "artifact:images/sha256-" + m.sha256 + "." <= m.reference
  }

  lemma {:induction false} FewNewKeys(p: Summary, session: string, entries: map<Key, Entry>, seen: set<Key>,
                                      listed: seq<Meta>)
    ensures |NewKeys(p, session, entries, seen, listed)| <= |listed|
  {
    if listed == [] {
      NewKeysOfNothing(p, session, entries, seen);
    } else {
      var n := |listed| - 1;
      FewNewKeys(p, session, entries, seen, listed[..n]);
      NewKeysStep(p, session, entries, seen, listed, n);
      assert listed[..n + 1] == listed;
    }
  }

  /** A summary of one to five new images is taken as a whole, and every image that it
      describes is announced. */
  lemma SummaryAnnounces(p: Summary, session: string, entries: map<Key, Entry>, seen: set<Key>, listed: seq<Meta>)
    requires p.success && !p.deliveryError && p.images == Some(listed) && session != "" && p.call != ""
    requires 0 < |listed| <= 5 && |entries| + |listed| <= 32 && forall m <- listed :: Described(m)
    requires forall i, j :: 0 <= i < j < |listed| ==> listed[i].reference != listed[j].reference
    requires forall m <- listed :: Key(session, p.agent, p.call, m.reference) !in entries
    requires forall m <- listed :: Key(session, p.agent, p.call, m.reference) !in seen
    ensures Sound(p, session, entries, seen)
    ensures var after := Announced(entries, NewKeys(p, session, entries, seen, listed), p, session, listed);
            forall m <- listed :: var key := Key(session, p.agent, p.call, m.reference);
                                  key in after && after[key] == Entry(m, "", false, false)
  {
    FewNewKeys(p, session, entries, seen, listed);
    forall m | m in listed ensures AcceptableHere(m, p, session, entries) {
      assert forall i :: 0 <= i < |m.sha256| ==> m.sha256[i] in m.sha256;
      assert Described(m);
    }
    hide Announced, AcceptableHere;
    var added := NewKeys(p, session, entries, seen, listed);
    forall m | m in listed
      ensures var key, after := Key(session, p.agent, p.call, m.reference),
                Announced(entries, added, p, session, listed);
              key in after && after[key] == Entry(m, "", false, false)
    {
      var i :| 0 <= i < |listed| && listed[i] == m;
      AnnouncedStarts(entries, added, p, session, listed, i);
    }
  }
}
