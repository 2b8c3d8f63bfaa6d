/** When the ingress store takes a message, and what it then keeps of it
    (internal/gateway/im_ingress_store.go:346-488). */
module IngressAccepted {
  import Utf8
  import opened IngressTypes
  import opened IngressTally
  import opened IngressSpec
  import opened IngressInvariant
  import opened IngressRuns

  /** The records that have not been settled for a day. */
  ghost function Live(s: Store): map<string, Record> {
    map id <- s.records | !IngressRuns.Expired(s.records[id], s.now) :: s.records[id]
  }

  predicate Scoped(v: string) {
    |v| <= MAX_SCOPED_ID_BYTES && Utf8.Valid(v)
  }

  /** A message that a chat adapter may hand over for processing. */
  predicate WellFormed(r: Record) {
    && r.platform != "" && r.accountID != "" && r.chatID != "" && r.senderID != "" && r.businessID != ""
    && Scoped(r.platform) && Scoped(r.accountID) && Scoped(r.chatID) && Scoped(r.senderID)
    && Scoped(r.businessID) && Scoped(r.semanticID) && Scoped(r.deliveryID)
    && Utf8.Valid(r.text) && |r.text| <= MAX_TEXT_BYTES
    && (r.inputDigest == "" || IsDigest(r.inputDigest))
    && (r.kind == "task" || r.kind == "control")
    && (r.state.Unset? || r.state.Received?)
  }

  /** Not from more than five minutes ahead, and sent within the last day. */
  predicate Timely(r: Record, now: int) {
    && (r.receivedAt == ZERO_TIME || r.receivedAt <= now + 5 * MINUTE)
    && (r.sourceTime == ZERO_TIME || now - 24 * HOUR <= r.sourceTime <= now + 5 * MINUTE)
  }

  /** The checkpoint follows the account's current one. */
  predicate NextCheckpoint(current: Cursor, r: Record, c: Cursor) {
    && ValidCursor(r.platform, c) && c.generation == current.generation + 1
    && (c.wechat.Some? ==> c.wechat.value.accountID == r.accountID)
    && (c.telegram.Some? ==> c.telegram.value.botID == "" || c.telegram.value.botID == r.accountID)
    && (current.wechat.Some? && c.wechat.Some? ==>
          current.wechat.value.batchVersion < c.wechat.value.batchVersion)
  }

  /** No record that is still kept has the message's business key, and none that claims
      a semantic key has the message's. */
  ghost predicate Unheard(records: map<string, Record>, r: Record) {
    forall id <- records ::
      && records[id].BusinessKey() != r.BusinessKey()
      && (r.semanticID != "" && ClaimsSemantic(records[id]) ==> records[id].SemanticKey() != r.SemanticKey())
  }

  /** A task needs its chat bound as it was when the task was written. */
  predicate Routed(routes: map<ChatIdentity, Route>, r: Record) {
    r.kind == "task" ==>
      && r.Identity() in routes
      && var route := routes[r.Identity()];
         route.phase == "active" && route.revision == r.routeRevision
         && route.authorizationDigest == r.authorizationDigest
  }

  /** A status query may use one place more than the limits on pending records. */
  ghost predicate HasRoom(records: map<string, Record>, r: Record, size: int) {
    var extra := if r.statusQuery && r.kind == "control" then 1 else 0;
    var account := Sum(records, Some(r.AccountKey()));
    var total := Sum(records, None);
    && |records| < 100000 && account.pending + account.tombstones < 100000
    && |PendingOn(records, r.Identity())| < 64 + extra
    && account.pending < 1024 + extra && total.pending < 4096 + extra
    && account.bytes + size <= 16 * 1048576
    && total.bytes + size <= 64 * 1048576 && total.memory + size <= 64 * 1048576
  }

  function NextSequence(routes: map<ChatIdentity, Route>, k: ChatIdentity): nat {
    if k in routes then routes[k].sequence + 1 else 1
  }

  /** The message as it is kept: a control keeps neither its text nor its digest. */
  function Message(q: Request, now: int, sequence: nat): Record {
    q.input.(recordID := q.id, requestID := "im-" + q.id, state := Received, sequence := sequence, updatedAt := now,
             receivedAt := if q.input.receivedAt == ZERO_TIME || now < q.input.receivedAt then now
               else q.input.receivedAt,
             text := if q.input.kind == "control" then "" else q.input.text,
             inputDigest := if q.input.kind == "control" then "" else q.input.inputDigest)
  }

  /** Everything that the store demands of a message before it takes it. */
  ghost predicate Welcome(lib: Library, s: Store, q: Request) {
    var r := q.input;
    var message := Message(q, s.now, NextSequence(s.routes, r.Identity()));
    && WellFormed(r) && Timely(r, s.now) && q.valid && q.available && !s.closed
    && (q.cursor.Some? ==> NextCheckpoint(CursorOf(s.cursors, r.AccountKey()), r, q.cursor.value))
    && Unheard(Live(s), r) && Routed(s.routes, r) && HasRoom(Live(s), r, lib.RecordSize(message))
  }

  lemma ValidExactly(r: Record, cursor: Option<Cursor>)
    requires r.state.Unset? || r.state.Received?
    ensures InvalidInput(r, cursor).None? <==> WellFormed(r) && (cursor.Some? ==> ValidCursor(r.platform, cursor.value))
  {
    hide Utf8.Valid, ValidCursor, IsDigest;
    var ids := [r.platform, r.accountID, r.chatID, r.senderID, r.businessID, r.semanticID, r.deliveryID];
    if forall v <- ids :: Scoped(v) {
      assert Scoped(ids[0]) && Scoped(ids[1]) && Scoped(ids[2]) && Scoped(ids[3]) && Scoped(ids[4]) && Scoped(ids[5])
             && Scoped(ids[6]);
    }
  }

  lemma PreparedExactly(q: Request, now: int)
    ensures var p := Prepare(q.input, q.id, now);
            && (p.In? && p.r.state.Received? <==>
                (q.input.state.Unset? || q.input.state.Received?) && Timely(q.input, now))
            && (p.In? && p.r.state.Received? ==> p.r.(sequence := 0) == Message(q, now, 0)
                                                 && p.r.sequence == q.input.sequence)
  {
  }

  lemma CheckpointExactly(s: Store, r: Record, c: Cursor)
    requires WellFormed(r) && c.generation > 0
    ensures CheckCursor(s.cursors, r.platform, r.accountID, c.generation - 1, c) == NoError
            <==> NextCheckpoint(CursorOf(s.cursors, r.AccountKey()), r, c)
  {
    hide Utf8.Valid, ValidCursor;
  }

  /** Pruning leaves exactly the live records and this chat's route. */
  lemma PrunedIsLive(lib: Library, s: Store, k: ChatIdentity)
    requires Inv(lib, s)
    ensures Pruned(s, k).records == Live(s)
    ensures k in Pruned(s, k).routes <==> k in s.routes
    ensures k in s.routes ==> Pruned(s, k).routes[k] == s.routes[k]
  {
    hide Inv, Pruned, IngressRuns.Expired;
    PrunedFrame(s, k);
    forall id: string ensures id in Pruned(s, k).records <==> id in Live(s) {
      PrunedExactly(lib, s, k, id);
    }
  }

  /** The indexes know exactly the keys of the records. */
  lemma UnheardExactly(lib: Library, s: Store, r: Record)
    requires Inv(lib, s)
    ensures Unheard(s.records, r) <==>
              r.BusinessKey() !in s.business && (r.semanticID != "" ==> r.SemanticKey() !in s.semantic)
  {
    hide RecordsOK, HistoryOK, RoutesOK, SequencesOK, TasksOK, Bounded, Record.BusinessKey, Record.SemanticKey;
    if r.BusinessKey() in s.business {
      var id := s.business[r.BusinessKey()];
      assert id in s.records && s.records[id].BusinessKey() == r.BusinessKey();
    }
    if r.SemanticKey() in s.semantic {
      var id := s.semantic[r.SemanticKey()];
      assert id in s.records && s.records[id].SemanticKey() == r.SemanticKey();
    }
  }

  /** Deduplication leaves a received message as it is exactly if it is unheard of. */
  lemma DeduplicatedExactly(lib: Library, s: Store, r: Record)
    requires Inv(lib, s) && (r.state.Received? || r.state.Rejected?) && !Reserved(r.reason)
    ensures var v := Deduplicated(s, Distinguished(lib, s, r));
            && !v.Turned?
            && (v.New? && v.disposition == Accepted && v.record.state.Received?
                <==> r.state.Received? && Unheard(s.records, r))
            && (v.New? && v.record.state.Received? ==> v.record == r && v.disposition == Accepted)
            && (v.New? ==> v.record.state.Received? || v.record.state.Rejected?)
  {
    hide Inv, Record.BusinessKey, Record.SemanticKey, Unheard;
    UnheardExactly(lib, s, r);
  }

  lemma AdmittedExactly(lib: Library, s: Store, r: Record, revision: string)
    requires r.state.Received?
    ensures var v, sequence := Admitted(lib, s, r, Accepted, revision), NextSequence(s.routes, r.Identity());
            && (v.New? <==>
                Routed(s.routes, r) && HasRoom(s.records, r, lib.RecordSize(r.(sequence := sequence))))
            && (v.New? ==>
                  && v.record == r.(sequence := sequence) && v.disposition == Accepted
                  && v.route == NewRoute(s.routes, r, revision))
            && !v.Repeated?
  {
    hide Sum, Record.AccountKey;
    var numbered := r.(sequence := NextSequence(s.routes, r.Identity()));
    SameKeys(r, numbered);
    RoomExactly(s, numbered, lib.RecordSize(numbered));
    assert HasRoom(s.records, numbered, lib.RecordSize(numbered)) == HasRoom(s.records, r, lib.RecordSize(numbered));
    hide HasRoom, AtCapacity;
  }

  lemma RoomExactly(s: Store, r: Record, size: int)
    requires r.state.Received?
    ensures AtCapacity(s, r, size) <==> !HasRoom(s.records, r, size)
  {
    hide Sum, Record.AccountKey, PendingOn;
  }

  /** The chat's route with its next number; a chat that has none gets an unbound one. */
  function NewRoute(routes: map<ChatIdentity, Route>, r: Record, revision: string): Route {
    if r.Identity() in routes then
      routes[r.Identity()].(sequence := routes[r.Identity()].sequence + 1)
    else Route(r.Identity(), revision, "", "", "", "unbound", 1)
  }

  lemma DecidesExactly(lib: Library, s: Store, r: Record, cursor: Option<Cursor>, revision: string)
    requires Inv(lib, s) && (r.state.Received? || r.state.Rejected?) && !Reserved(r.reason)
    requires cursor.Some? ==> cursor.value.generation > 0
    ensures var v, sequence := Decide(lib, s, r, cursor, revision), NextSequence(s.routes, r.Identity());
            && (v.New? && v.disposition == Accepted && !v.record.state.Rejected? <==>
                && r.state.Received? && Unheard(s.records, r) && Routed(s.routes, r)
                && (cursor.Some? ==> CheckCursor(s.cursors, r.platform, r.accountID, cursor.value.generation - 1,
                                                 cursor.value) == NoError)
                && HasRoom(s.records, r, lib.RecordSize(r.(sequence := sequence))))
            && (v.New? && v.disposition == Accepted && !v.record.state.Rejected? ==>
                  v.record == r.(sequence := sequence) && v.route == NewRoute(s.routes, r, revision))
  {
    hide Inv, Unheard, Routed, HasRoom, CheckCursor, Distinguished, Deduplicated, Admitted, NewRoute, NextSequence;
    DeduplicatedExactly(lib, s, r);
    var v := Deduplicated(s, Distinguished(lib, s, r));
    if v.New? && v.record.state.Received? {
      AdmittedExactly(lib, s, r, revision);
    } else if v.New? {
      StaysRejected(lib, s, v.record, v.disposition, revision);
    }
  }

  lemma StaysRejected(lib: Library, s: Store, r: Record, disposition: Disposition, revision: string)
    ensures var v := Admitted(lib, s, r, disposition, revision); v.New? ==> v.record.state == r.state
  {
    hide AtCapacity;
  }

  /** What the store holds after it has taken a message: the live records and the
      message under its keys, the chat's route with its next number, and the checkpoint. */
  ghost predicate Holds(lib: Library, s: Store, q: Request, after: Store) {
    var r, k := q.input, q.input.Identity();
    var message := Message(q, s.now, NextSequence(s.routes, k));
    && after.records == Live(s)[q.id := message.(size := lib.RecordSize(message))]
    && r.BusinessKey() in after.business && after.business[r.BusinessKey()] == q.id
    && (r.semanticID != "" ==> r.SemanticKey() in after.semantic && after.semantic[r.SemanticKey()] == q.id)
    && k in after.routes && after.routes[k] == NewRoute(s.routes, r, q.revision)
    && (forall other <- after.routes :: other != k ==> other in s.routes && after.routes[other] == s.routes[other])
    && after.cursors == (if q.cursor.Some? then s.cursors[r.AccountKey() := q.cursor.value] else s.cursors)
    && after.now == s.now && !after.closed
  }

  /** What a decision in favour of a message publishes. */
  lemma PublishesMessage(lib: Library, s: Store, p: Store, q: Request, r: Record)
    requires p.records == Live(s) && p.cursors == s.cursors && p.now == s.now && !p.closed
    requires forall k <- p.routes :: k in s.routes && p.routes[k] == s.routes[k]
    requires q.input.Identity() in s.routes ==> q.input.Identity() in p.routes
    requires r == Message(q, s.now, NextSequence(p.routes, q.input.Identity())) && !Reserved(q.input.reason)
    ensures Holds(lib, s, q, Published(lib, p, r, NewRoute(p.routes, q.input, q.revision), q.cursor))
  {
    hide Live, Record.AccountKey, Record.BusinessKey, Record.SemanticKey;
    SameKeys(q.input, r);
    assert Kept(lib, r) == r.(size := lib.RecordSize(r));
    hide Message, Kept;
  }

  lemma ConcludesExactly(lib: Library, p: Store, q: Request, r: Record)
    requires Inv(lib, p) && (r.state.Received? || r.state.Rejected?) && !Reserved(r.reason)
    requires r.recordID != "" && r.recordID in p.issued && r.recordID !in p.records && r.updatedAt == p.now
    requires q.revision in p.issued && (q.cursor.Some? ==> q.cursor.value.generation > 0)
    ensures var (after, result) := Conclude(lib, p, q, r);
            var message := r.(sequence := NextSequence(p.routes, r.Identity()));
            && (result.disposition == Accepted <==> r.state.Received? && Demands(lib, p, r, q.cursor))
            && (result.disposition == Accepted ==>
                  result == ReceiveResult(Accepted, r.recordID, r.state, r.reason)
                  && after == Published(lib, p, message, NewRoute(p.routes, r, q.revision), q.cursor))
  {
    hide Inv, Decide, Published, Unheard, Routed, HasRoom, CheckCursor, NewRoute, NextSequence, Publishable;
    DecidesExactly(lib, p, r, q.cursor, q.revision);
    DecideMeaning(lib, p, r, q.cursor, q.revision);
  }

  /** What is demanded of a prepared message once the history is pruned. */
  ghost predicate Demands(lib: Library, p: Store, r: Record, cursor: Option<Cursor>)
    requires cursor.Some? ==> cursor.value.generation > 0
  {
    && Unheard(p.records, r) && Routed(p.routes, r)
    && (cursor.Some? ==>
          CheckCursor(p.cursors, r.platform, r.accountID, cursor.value.generation - 1, cursor.value) == NoError)
    && HasRoom(p.records, r, lib.RecordSize(r.(sequence := NextSequence(p.routes, r.Identity()))))
  }

  /** The checks before the store is locked, and the lock. */
  predicate Passes(s: Store, q: Request) {
    InvalidInput(q.input, q.cursor).None? && q.valid && q.available && !s.closed
  }

  lemma AcceptCases(lib: Library, s: Store, q: Request)
    ensures !Passes(s, q) ==> Accept(lib, s, q).1.disposition != Accepted
    ensures Passes(s, q) ==>
              && (q.cursor.Some? ==> q.cursor.value.generation > 0)
              && var p, prepared := Pruned(s, q.input.Identity()).(issued := s.issued + {q.id, q.revision}),
                   Prepare(q.input, q.id, s.now);
                 Accept(lib, s, q) == if prepared.Out? then (p, prepared.result) else Conclude(lib, p, q, prepared.r)
  {
    hide InvalidInput, Pruned, Prepare, Conclude, ValidCursor;
  }

  lemma WelcomeNeeds(lib: Library, s: Store, q: Request)
    ensures Welcome(lib, s, q) ==>
              Passes(s, q) && Timely(q.input, s.now) && (q.input.state.Unset? || q.input.state.Received?)
  {
    if q.input.state.Unset? || q.input.state.Received? {
      ValidExactly(q.input, q.cursor);
    }
    hide InvalidInput, Unheard, Live, HasRoom, Utf8.Valid, ValidCursor, Message;
  }

  lemma Asked(s: Store, q: Request)
    requires Allowed(s, OpAccept(q))
    ensures Fresh(s, q.id) && Fresh(s, q.revision) && q.id != "" && q.id !in s.issued && !Reserved(q.input.reason)
  {
  }

  lemma TimeIsNoReserve(q: Request, r: Record)
    requires (r.reason == q.input.reason || r.reason == "source_time_out_of_range") && !Reserved(q.input.reason)
    ensures !Reserved(r.reason)
  {
  }

  lemma SameNumbers(s: Store, p: Store, q: Request, r: Record)
    requires var k := q.input.Identity();
             (k in p.routes <==> k in s.routes) && (k in s.routes ==> p.routes[k] == s.routes[k])
    requires r.(sequence := 0) == Message(q, s.now, 0)
    ensures r.(sequence := NextSequence(p.routes, q.input.Identity()))
            == Message(q, s.now, NextSequence(s.routes, q.input.Identity()))
    ensures NextSequence(p.routes, q.input.Identity()) == NextSequence(s.routes, q.input.Identity())
    ensures NewRoute(p.routes, r, q.revision) == NewRoute(p.routes, q.input, q.revision)
    ensures r.reason == q.input.reason
  {
  }

  /** The demands on the prepared message are those on the message that was received. */
  lemma SameDemands(lib: Library, s: Store, p: Store, q: Request, r: Record)
    requires p.records == Live(s) && p.cursors == s.cursors && Passes(s, q) && Timely(q.input, s.now)
    requires q.input.state.Unset? || q.input.state.Received?
    requires q.cursor.Some? ==> q.cursor.value.generation > 0
    requires var k := q.input.Identity();
             (k in p.routes <==> k in s.routes) && (k in s.routes ==> p.routes[k] == s.routes[k])
    requires r.(sequence := 0) == Message(q, s.now, 0)
    ensures Demands(lib, p, r, q.cursor) <==> Welcome(lib, s, q)
    ensures !s.closed
  {
    hide InvalidInput, Live, Utf8.Valid, ValidCursor, CheckCursor, NextCheckpoint, WellFormed, Sum, PendingOn,
         Record.AccountKey, Record.BusinessKey, Record.SemanticKey, Timely, CursorOf;
    ValidExactly(q.input, q.cursor);
    SameKeys(q.input, r);
    if q.cursor.Some? {
      CheckpointExactly(s, q.input, q.cursor.value);
    }
  }

  /** The store takes a message for processing exactly if it is welcome. It then answers
      with the message's own number, holds the whole message, and has given it the next
      number of its chat; nothing else has changed but for expired history. */
  lemma AcceptedExactly(lib: Library, s: Store, q: Request)
    requires Inv(lib, s) && Allowed(s, OpAccept(q))
    ensures var (after, result) := Accept(lib, s, q);
            && (result.disposition == Accepted <==> Welcome(lib, s, q))
            && (result.disposition == Accepted ==>
                  result == ReceiveResult(Accepted, q.id, Received, q.input.reason) && Holds(lib, s, q, after))
  {
    hide *;
    var k := q.input.Identity();
    PrunedInv(lib, s, k);
    PrunedFrame(s, k);
    PrunedIsLive(lib, s, k);
    NamedByID(lib, s);
    IssuedInv(lib, Pruned(s, k), {q.id, q.revision});
    var p := Pruned(s, k).(issued := s.issued + {q.id, q.revision});
    Asked(s, q);
    PreparedExactly(q, s.now);
    PreparedOut(q.input, q.id, s.now);
    AcceptCases(lib, s, q);
    WelcomeNeeds(lib, s, q);
    if Passes(s, q) && Prepare(q.input, q.id, s.now).In? {
      PreparedMeaning(q, s.now);
      var r := Prepare(q.input, q.id, s.now).r;
      TimeIsNoReserve(q, r);
      ConcludesExactly(lib, p, q, r);
      if r.state.Received? {
        SameDemands(lib, s, p, q, r);
        SameNumbers(s, p, q, r);
        PublishesMessage(lib, s, p, q, Message(q, s.now, NextSequence(p.routes, k)));
      }
    }
  }

  // The other answers to a well-formed message

  predicate SentInTime(r: Record, now: int) {
    r.sourceTime == ZERO_TIME || now - 24 * HOUR <= r.sourceTime <= now + 5 * MINUTE
  }

  /** It reaches the store, not from the future, and with a checkpoint that follows. */
  ghost predicate Arrives(s: Store, q: Request) {
    && WellFormed(q.input) && (q.input.receivedAt == ZERO_TIME || q.input.receivedAt <= s.now + 5 * MINUTE)
    && q.valid && q.available && !s.closed
    && (q.cursor.Some? ==> NextCheckpoint(CursorOf(s.cursors, q.input.AccountKey()), q.input, q.cursor.value))
  }

  /** The message as it is decided about: one that was sent too long ago is rejected. */
  function Noted(q: Request, now: int, sequence: nat): Record {
    var m := Message(q, now, sequence);
    if SentInTime(q.input, now) then m
    else m.(state := Rejected, reason := "source_time_out_of_range", text := "")
  }

  /** A rejection in the message's place, with its number and without its text. */
  function Rejection(r: Record, reason: string): Record {
    r.(state := Rejected, reason := reason, text := "")
  }

  /** Only history that has expired is gone. */
  ghost predicate OnlyForgets(s: Store, after: Store) {
    after.records == Live(s) && after.cursors == s.cursors && after.now == s.now && !after.closed
  }

  /** The pruned store that the decision is about. */
  ghost function Basis(s: Store, q: Request): Store {
    Pruned(s, q.input.Identity()).(issued := s.issued + {q.id, q.revision})
  }

  lemma BasisMeaning(lib: Library, s: Store, q: Request)
    requires Inv(lib, s) && Allowed(s, OpAccept(q))
    ensures var p, k := Basis(s, q), q.input.Identity();
            && Inv(lib, p) && p.records == Live(s) && p.cursors == s.cursors && p.now == s.now && p.closed == s.closed
            && (k in p.routes <==> k in s.routes) && (k in s.routes ==> p.routes[k] == s.routes[k])
            && q.id != "" && q.id in p.issued && q.id !in p.records && q.revision in p.issued
  {
    hide *;
    var k := q.input.Identity();
    PrunedInv(lib, s, k);
    PrunedFrame(s, k);
    PrunedIsLive(lib, s, k);
    NamedByID(lib, s);
    Asked(s, q);
    IssuedInv(lib, Pruned(s, k), {q.id, q.revision});
    BasisIs(s, q);
  }

  lemma BasisIs(s: Store, q: Request)
    ensures Basis(s, q) == Pruned(s, q.input.Identity()).(issued := s.issued + {q.id, q.revision})
  {
    hide Pruned;
  }

  lemma NotedExactly(q: Request, now: int)
    requires q.input.state.Unset? || q.input.state.Received?
    requires q.input.receivedAt == ZERO_TIME || q.input.receivedAt <= now + 5 * MINUTE
    ensures Prepare(q.input, q.id, now) == In(Noted(q, now, q.input.sequence))
  {
  }

  lemma NotedMeaning(q: Request, now: int, sequence: nat)
    requires !Reserved(q.input.reason)
    ensures var r := Noted(q, now, sequence);
            && r.Identity() == q.input.Identity() && r.recordID == q.id && r.updatedAt == now
            && (r.state.Received? || r.state.Rejected?) && (r.state.Received? <==> SentInTime(q.input, now))
            && !Reserved(r.reason) && r.businessID == q.input.businessID && r.semanticID == q.input.semanticID
            && r.(sequence := 0) == Noted(q, now, 0) && r.sequence == sequence
  {
  }

  /** A message that arrives is decided about as it is noted. */
  lemma ArrivesPrepared(lib: Library, s: Store, q: Request)
    requires Inv(lib, s) && Allowed(s, OpAccept(q)) && Arrives(s, q)
    ensures q.cursor.Some? ==> q.cursor.value.generation > 0
    ensures var p, r := Basis(s, q), Noted(q, s.now, q.input.sequence);
            && Accept(lib, s, q) == Conclude(lib, p, q, r)
            && (q.cursor.Some? ==> CheckCursor(p.cursors, r.platform, r.accountID, q.cursor.value.generation - 1,
                                               q.cursor.value) == NoError)
  {
    hide Inv, InvalidInput, Utf8.Valid, ValidCursor, CheckCursor, NextCheckpoint, WellFormed, Pruned, Conclude, Prepare,
         Record.AccountKey, Noted, Reserved;
    WellFormedState(q.input);
    ArrivesCursor(s, q);
    ValidExactly(q.input, q.cursor);
    NotedExactly(q, s.now);
    NotedMeaning(q, s.now, q.input.sequence);
    PrunedFrame(s, q.input.Identity());
    AcceptCases(lib, s, q);
  }

  lemma WellFormedState(r: Record)
    requires WellFormed(r)
    ensures r.state.Unset? || r.state.Received?
  {
    hide Utf8.Valid;
  }

  lemma ArrivesCursor(s: Store, q: Request)
    requires Arrives(s, q)
    ensures q.cursor.Some? ==>
              && ValidCursor(q.input.platform, q.cursor.value) && q.cursor.value.generation > 0
              && CheckCursor(s.cursors, q.input.platform, q.input.accountID, q.cursor.value.generation - 1,
                             q.cursor.value) == NoError
  {
    hide Utf8.Valid, CheckCursor, WellFormed;
    if q.cursor.Some? {
      CheckpointExactly(s, q.input, q.cursor.value);
    }
  }

  lemma AdmittedTurned(lib: Library, s: Store, r: Record, revision: string)
    requires r.state.Received?
    ensures var size := lib.RecordSize(r.(sequence := NextSequence(s.routes, r.Identity())));
            && (!Routed(s.routes, r) ==>
                  Admitted(lib, s, r, Accepted, revision) == Turned(Retrying("route_changed")))
            && (Routed(s.routes, r) && !HasRoom(s.records, r, size) ==>
                  Admitted(lib, s, r, Accepted, revision) == Turned(Retrying("capacity")))
  {
    hide Sum, Record.AccountKey;
    AdmittedExactly(lib, s, r, revision);
    hide HasRoom, AtCapacity;
  }

  /** The demands on the noted message are those on the message that was received. */
  lemma NotedDemands(s: Store, p: Store, q: Request, size: int)
    requires p.records == Live(s)
    requires var k := q.input.Identity();
             (k in p.routes <==> k in s.routes) && (k in s.routes ==> p.routes[k] == s.routes[k])
    ensures var r, k := Noted(q, s.now, q.input.sequence), q.input.Identity();
            && (Unheard(p.records, r) <==> Unheard(Live(s), q.input)) && r.BusinessKey() == q.input.BusinessKey()
            && (Routed(p.routes, r) <==> Routed(s.routes, q.input)) && r.SemanticKey() == q.input.SemanticKey()
            && (HasRoom(p.records, r, size) <==> HasRoom(Live(s), q.input, size))
            && NextSequence(p.routes, k) == NextSequence(s.routes, k)
            && r.(sequence := NextSequence(s.routes, k)) == Noted(q, s.now, NextSequence(s.routes, k))
            && NewRoute(p.routes, r, q.revision) == NewRoute(s.routes, q.input, q.revision)
  {
    hide Live, Sum, PendingOn, Record.AccountKey, Record.BusinessKey, Record.SemanticKey, SentInTime;
    SameKeys(q.input, Noted(q, s.now, q.input.sequence));
  }

  lemma DecideAdmitted(lib: Library, p: Store, q: Request, r: Record, d: Record, disposition: Disposition)
    requires q.cursor.Some? ==>
               q.cursor.value.generation > 0 && CheckCursor(p.cursors, r.platform, r.accountID,
                                                            q.cursor.value.generation - 1, q.cursor.value) == NoError
    requires Deduplicated(p, Distinguished(lib, p, r)) == New(d, NO_ROUTE, disposition)
    ensures var v := Admitted(lib, p, d, disposition, q.revision);
            Conclude(lib, p, q, r) ==
            match v
            case Turned(result) => (p, result)
            case New(n, route, given) =>
              (Published(lib, p, n, route, q.cursor),
               ReceiveResult(if n.state.Rejected? && given != Duplicate then Refused else given, n.recordID, n.state,
                             n.reason))
            case Repeated(_) => Conclude(lib, p, q, r)
  {
    hide CheckCursor, Distinguished, Deduplicated, Admitted, Published;
  }

  lemma DeduplicatedFresh(lib: Library, s: Store, r: Record)
    requires Inv(lib, s) && (r.state.Received? || r.state.Rejected?) && !Reserved(r.reason) && Unheard(s.records, r)
    ensures Deduplicated(s, Distinguished(lib, s, r)) == New(r, NO_ROUTE, Accepted)
  {
    hide Inv, Record.BusinessKey, Record.SemanticKey, Unheard;
    UnheardExactly(lib, s, r);
  }

  /** A new message that cannot be taken now is to be sent again, and is told why. */
  lemma RetriedExactly(lib: Library, s: Store, q: Request)
    requires Inv(lib, s) && Allowed(s, OpAccept(q)) && Arrives(s, q) && SentInTime(q.input, s.now)
    requires Unheard(Live(s), q.input) && !Welcome(lib, s, q)
    ensures var (after, result) := Accept(lib, s, q);
            && result == ReceiveResult(Retryable, "", Unset, if Routed(s.routes, q.input) then "capacity"
                                       else "route_changed")
            && OnlyForgets(s, after)
  {
    hide Inv, Allowed, Accept, Conclude, Live, Unheard, Routed, HasRoom, Basis, Noted, Admitted, Deduplicated,
         Distinguished, CheckCursor, WellFormed, NextCheckpoint, NewRoute, NextSequence, Message, Reserved, SentInTime,
         Record.AccountKey, Record.BusinessKey, Record.SemanticKey;
    var k, p, r := q.input.Identity(), Basis(s, q), Noted(q, s.now, q.input.sequence);
    var message := Message(q, s.now, NextSequence(s.routes, k));
    Asked(s, q);
    BasisMeaning(lib, s, q);
    ArrivesPrepared(lib, s, q);
    NotedMeaning(q, s.now, q.input.sequence);
    NotedInTime(q, s.now, NextSequence(s.routes, k));
    NotedDemands(s, p, q, lib.RecordSize(message));
    DeduplicatedFresh(lib, p, r);
    AdmittedTurned(lib, p, r, q.revision);
    DecideAdmitted(lib, p, q, r, r, Accepted);
    ArrivesWelcome(lib, s, q);
  }

  lemma NotedInTime(q: Request, now: int, sequence: nat)
    requires SentInTime(q.input, now)
    ensures Noted(q, now, sequence) == Message(q, now, sequence)
  {
  }

  lemma ArrivesWelcome(lib: Library, s: Store, q: Request)
    requires Arrives(s, q) && SentInTime(q.input, s.now) && Unheard(Live(s), q.input)
    ensures Welcome(lib, s, q) <==>
              Routed(s.routes, q.input)
              && HasRoom(Live(s), q.input, lib.RecordSize(Message(q, s.now,
                                                                  NextSequence(s.routes, q.input.Identity()))))
  {
    hide WellFormed, Unheard, Routed, HasRoom, NextCheckpoint, Message, Live;
  }

  // Rejections that are kept, so that a repetition of the message is recognized

  ghost predicate HasPlace(records: map<string, Record>, r: Record, size: int) {
    var account := Sum(records, Some(r.AccountKey()));
    |records| < 100000 && account.pending + account.tombstones < 100000
    && Sum(records, None).memory + size <= 64 * 1048576
  }

  lemma AdmittedRejection(lib: Library, s: Store, r: Record, disposition: Disposition, revision: string)
    requires r.state.Rejected?
    requires HasPlace(s.records, r, lib.RecordSize(r.(sequence := NextSequence(s.routes, r.Identity()))))
    ensures Admitted(lib, s, r, disposition, revision)
            == New(r.(sequence := NextSequence(s.routes, r.Identity())), NewRoute(s.routes, r, revision), disposition)
  {
    hide Sum, Record.AccountKey, PendingOn;
    SameKeys(r, r.(sequence := NextSequence(s.routes, r.Identity())));
  }

  /** The rejection is stored instead of the message, with the checkpoint. */
  ghost predicate HoldsRejection(lib: Library, s: Store, q: Request, r: Record, after: Store) {
    && after.records == Live(s)[q.id := r.(size := lib.RecordSize(r))]
    && r.BusinessKey() in after.business && after.business[r.BusinessKey()] == q.id
    && after.cursors == (if q.cursor.Some? then s.cursors[q.input.AccountKey() := q.cursor.value] else s.cursors)
  }

  lemma PublishesRejection(lib: Library, s: Store, p: Store, q: Request, r: Record, route: Route)
    requires p.records == Live(s) && p.cursors == s.cursors
    requires r.recordID == q.id && r.Identity() == q.input.Identity() && r.state.Rejected? && r.text == ""
    ensures HoldsRejection(lib, s, q, r, Published(lib, p, r, route, q.cursor))
  {
    hide Live, Record.BusinessKey, Record.SemanticKey;
    assert Kept(lib, r) == r.(size := lib.RecordSize(r));
    hide Kept;
  }

  /** From the decision about a rejection to the answer. */
  lemma RejectionAnswered(lib: Library, s: Store, q: Request, d: Record, disposition: Disposition)
    requires Inv(lib, s) && Allowed(s, OpAccept(q)) && Arrives(s, q)
    requires var p, r := Basis(s, q), Noted(q, s.now, q.input.sequence);
             Deduplicated(p, Distinguished(lib, p, r)) == New(d, NO_ROUTE, disposition)
    requires d.state.Rejected? && d.text == "" && d.recordID == q.id && d.Identity() == q.input.Identity()
    requires var n := d.(sequence := NextSequence(s.routes, d.Identity())); HasPlace(Live(s), d, lib.RecordSize(n))
    ensures var (after, result) := Accept(lib, s, q);
            && result == ReceiveResult(if disposition == Duplicate then Duplicate
                                       else Refused, q.id, Rejected, d.reason)
            && HoldsRejection(lib, s, q, d.(sequence := NextSequence(s.routes, d.Identity())), after)
  {
    hide Inv, Allowed, Accept, Conclude, Live, Basis, Noted, Admitted, Deduplicated, Distinguished, CheckCursor,
         Arrives, NewRoute, HasPlace, Published, HoldsRejection, Reserved;
    var p, r := Basis(s, q), Noted(q, s.now, q.input.sequence);
    Asked(s, q);
    BasisMeaning(lib, s, q);
    ArrivesPrepared(lib, s, q);
    SameAccount(q, s.now);
    AdmittedRejection(lib, p, d, disposition, q.revision);
    DecideAdmitted(lib, p, q, r, d, disposition);
    PublishesRejection(lib, s, p, q, d.(sequence := NextSequence(s.routes, d.Identity())),
                       NewRoute(p.routes, d, q.revision));
  }

  lemma SameAccount(q: Request, now: int)
    ensures var r := Noted(q, now, q.input.sequence);
            r.platform == q.input.platform && r.accountID == q.input.accountID
  {
  }

  /** A message that was sent too long ago is refused, and its refusal kept. */
  lemma LateIsRecorded(lib: Library, s: Store, q: Request)
    requires Inv(lib, s) && Allowed(s, OpAccept(q)) && Arrives(s, q) && !SentInTime(q.input, s.now)
    requires Unheard(Live(s), q.input)
    requires var m := Message(q, s.now, NextSequence(s.routes, q.input.Identity()));
             HasPlace(Live(s), q.input, lib.RecordSize(Rejection(m, "source_time_out_of_range")))
    ensures var (after, result) := Accept(lib, s, q);
            var m := Message(q, s.now, NextSequence(s.routes, q.input.Identity()));
            && result == ReceiveResult(Refused, q.id, Rejected, "source_time_out_of_range")
            && HoldsRejection(lib, s, q, Rejection(m, "source_time_out_of_range"), after)
  {
    hide Inv, Allowed, Accept, Live, Unheard, HasPlace, Basis, Deduplicated, Distinguished, Arrives, HoldsRejection,
         Reserved, SentInTime, NextSequence;
    var p, r := Basis(s, q), Noted(q, s.now, q.input.sequence);
    Asked(s, q);
    BasisMeaning(lib, s, q);
    NotedMeaning(q, s.now, q.input.sequence);
    NotedDemands(s, p, q, 0);
    DeduplicatedFresh(lib, p, r);
    PlaceOfSame(Live(s), q.input, r, lib.RecordSize(r.(sequence := NextSequence(s.routes, r.Identity()))));
    RejectionAnswered(lib, s, q, r, Accepted);
  }

  lemma PlaceOfSame(records: map<string, Record>, a: Record, b: Record, size: int)
    requires a.Identity() == b.Identity()
    ensures HasPlace(records, a, size) <==> HasPlace(records, b, size)
  {
    hide Sum, Record.AccountKey;
    SameKeys(a, b);
  }

  /** A Telegram update whose number a kept record has with other content is refused, and
      its refusal kept under a number of its own; the kept record stays as it is. */
  lemma ConflictIsRecorded(lib: Library, s: Store, q: Request, id: string)
    requires Inv(lib, s) && Allowed(s, OpAccept(q)) && Arrives(s, q) && q.input.platform == "telegram"
    requires id in Live(s) && Live(s)[id].BusinessKey() == q.input.BusinessKey()
    requires var m := Message(q, s.now, 0);
             Live(s)[id].chatID != m.chatID || Live(s)[id].semanticID != m.semanticID
             || Live(s)[id].inputDigest != m.inputDigest
    requires var c := Conflicting(lib, q, s.now, NextSequence(s.routes, q.input.Identity()));
             && (forall x <- Live(s) :: Live(s)[x].BusinessKey() != c.BusinessKey())
             && HasPlace(Live(s), q.input, lib.RecordSize(c))
    ensures var (after, result) := Accept(lib, s, q);
            && result == ReceiveResult(Refused, q.id, Rejected, "update_id_conflict")
            && HoldsRejection(lib, s, q, Conflicting(lib, q, s.now, NextSequence(s.routes, q.input.Identity())), after)
            && id in after.records && after.records[id] == s.records[id]
  {
    hide Inv, Allowed, Accept, HasPlace, Basis, Deduplicated, Arrives, Reserved, NextSequence, Distinguished, Live,
         Noted,
         Conflicting, Record.BusinessKey, Record.AccountKey;
    var p := Basis(s, q);
    var d := Conflicting(lib, q, s.now, q.input.sequence);
    BasisMeaning(lib, s, q);
    ConflictingMeaning(lib, q, s.now, q.input.sequence, NextSequence(s.routes, q.input.Identity()));
    ConflictDecided(lib, s, p, q, id);
    PlaceOfSame(Live(s), q.input, d, lib.RecordSize(d.(sequence := NextSequence(s.routes, d.Identity()))));
    RejectionAnswered(lib, s, q, d, Accepted);
    Asked(s, q);
    LiveIsStored(lib, s, q, id);
  }

  lemma LiveIsStored(lib: Library, s: Store, q: Request, id: string)
    requires Inv(lib, s) && id in Live(s) && q.id !in s.issued
    ensures id in s.records && Live(s)[id] == s.records[id] && id != q.id
  {
    hide Inv, IngressRuns.Expired;
    NamedByID(lib, s);
  }

  /** The refusal of a message whose number was used before. */
  function Conflicting(lib: Library, q: Request, now: int, sequence: nat): Record {
    var m := Message(q, now, sequence);
    Rejection(m, "update_id_conflict").(businessID :=
      "update-conflict:" + lib.conflictDigest(m.businessID, m.chatID, m.semanticID, m.inputDigest))
  }

  lemma ConflictingMeaning(lib: Library, q: Request, now: int, sequence: nat, next: nat)
    ensures var d := Conflicting(lib, q, now, sequence);
            && d.state.Rejected? && d.text == "" && d.recordID == q.id && d.Identity() == q.input.Identity()
            && d.reason == "update_id_conflict" && d.(sequence := next) == Conflicting(lib, q, now, next)
            && d.BusinessKey() == Conflicting(lib, q, now, next).BusinessKey()
  {
  }

  lemma ConflictDecided(lib: Library, s: Store, p: Store, q: Request, id: string)
    requires Inv(lib, p) && p.records == Live(s) && q.input.platform == "telegram"
    requires id in p.records && p.records[id].BusinessKey() == q.input.BusinessKey()
    requires var m := Message(q, s.now, 0);
             p.records[id].chatID != m.chatID || p.records[id].semanticID != m.semanticID
             || p.records[id].inputDigest != m.inputDigest
    requires forall x <- p.records ::
               p.records[x].BusinessKey() != Conflicting(lib, q, s.now, q.input.sequence).BusinessKey()
    ensures var r := Noted(q, s.now, q.input.sequence);
            Deduplicated(p, Distinguished(lib, p, r)) == New(Conflicting(lib, q, s.now, q.input.sequence), NO_ROUTE,
                                                             Accepted)
  {
    hide Inv, Live, Record.BusinessKey, Record.SemanticKey, SentInTime;
    var r, c := Noted(q, s.now, q.input.sequence), Conflicting(lib, q, s.now, q.input.sequence);
    SameKeys(q.input, r);
    BusinessHolder(lib, p, q.input.BusinessKey(), id);
    BusinessFree(lib, p, c.BusinessKey());
    assert Distinguished(lib, p, r) == c;
  }

  lemma BusinessHolder(lib: Library, s: Store, key: string, id: string)
    requires Inv(lib, s) && id in s.records && s.records[id].BusinessKey() == key
    ensures key in s.business && s.business[key] == id
  {
    hide RecordsOK, HistoryOK, SemanticOK, RoutesOK, SequencesOK, TasksOK, Bounded, Record.BusinessKey;
  }

  lemma BusinessFree(lib: Library, s: Store, key: string)
    requires Inv(lib, s) && forall x <- s.records :: s.records[x].BusinessKey() != key
    ensures key !in s.business
  {
    hide RecordsOK, HistoryOK, SemanticOK, RoutesOK, SequencesOK, TasksOK, Bounded, Record.BusinessKey;
  }

  /** A new Telegram update with the semantic key of a kept record is answered as a
      duplicate, and kept as a rejection under its own number. */
  lemma TelegramRepeatIsRecorded(lib: Library, s: Store, q: Request, id: string)
    requires Inv(lib, s) && Allowed(s, OpAccept(q)) && Arrives(s, q) && q.input.platform == "telegram"
    requires q.input.semanticID != "" && id in Live(s) && ClaimsSemantic(Live(s)[id])
    requires Live(s)[id].SemanticKey() == q.input.SemanticKey()
    requires forall x <- Live(s) :: Live(s)[x].BusinessKey() != q.input.BusinessKey()
    requires var m := Message(q, s.now, NextSequence(s.routes, q.input.Identity()));
             HasPlace(Live(s), q.input, lib.RecordSize(Rejection(m, "semantic_duplicate")))
    ensures var (after, result) := Accept(lib, s, q);
            var m := Message(q, s.now, NextSequence(s.routes, q.input.Identity()));
            && result == ReceiveResult(Duplicate, q.id, Rejected, "semantic_duplicate")
            && HoldsRejection(lib, s, q, Rejection(m, "semantic_duplicate"), after)
  {
    hide Inv, Allowed, Accept, HasPlace, Basis, Deduplicated, Arrives, Reserved, NextSequence, Distinguished, Live,
         Noted,
         ClaimsSemantic, HoldsRejection, Record.BusinessKey, Record.SemanticKey, Record.AccountKey;
    var p := Basis(s, q);
    var d := Rejection(Message(q, s.now, q.input.sequence), "semantic_duplicate");
    Asked(s, q);
    BasisMeaning(lib, s, q);
    RepeatDecided(lib, s, p, q, id);
    PlaceOfSame(Live(s), q.input, d, lib.RecordSize(d.(sequence := NextSequence(s.routes, d.Identity()))));
    RejectionAnswered(lib, s, q, d, Duplicate);
  }

  lemma RepeatDecided(lib: Library, s: Store, p: Store, q: Request, id: string)
    requires Inv(lib, p) && p.records == Live(s) && q.input.platform == "telegram" && !Reserved(q.input.reason)
    requires q.input.semanticID != "" && id in p.records && ClaimsSemantic(p.records[id])
    requires p.records[id].SemanticKey() == q.input.SemanticKey()
    requires forall x <- p.records :: p.records[x].BusinessKey() != q.input.BusinessKey()
    ensures var r := Noted(q, s.now, q.input.sequence);
            Deduplicated(p, Distinguished(lib, p, r))
            == New(Rejection(Message(q, s.now, q.input.sequence), "semantic_duplicate"), NO_ROUTE, Duplicate)
  {
    hide Inv, Live, Record.BusinessKey, Record.SemanticKey, SentInTime, ClaimsSemantic;
    var r := Noted(q, s.now, q.input.sequence);
    SameKeys(q.input, r);
    BusinessFree(lib, p, q.input.BusinessKey());
    SemanticHolder(lib, p, id);
    assert Distinguished(lib, p, r) == r;
  }

  lemma SemanticHolder(lib: Library, s: Store, id: string)
    requires Inv(lib, s) && id in s.records && ClaimsSemantic(s.records[id])
    ensures s.records[id].SemanticKey() in s.semantic
  {
    hide RecordsOK, HistoryOK, BusinessOK, RoutesOK, SequencesOK, TasksOK, Bounded, Record.SemanticKey;
  }
}
