/** What the ingress store promises over whole runs. */
module IngressRuns {
  import opened IngressTypes
  import opened IngressTally
  import opened IngressSpec
  import opened IngressInvariant

  ghost function Run(lib: Library, s: Store, ops: seq<Op>): Store
    decreases |ops|
  {
    if ops == [] then s else Run(lib, Step(lib, s, ops[0]), ops[1..])
  }

  ghost predicate RunAllowed(lib: Library, s: Store, ops: seq<Op>)
    decreases |ops|
  {
    ops == [] || (Allowed(s, ops[0]) && RunAllowed(lib, Step(lib, s, ops[0]), ops[1..]))
  }

  lemma {:induction false} RunInv(lib: Library, s: Store, ops: seq<Op>)
    requires Inv(lib, s) && RunAllowed(lib, s, ops)
    ensures Inv(lib, Run(lib, s, ops))
    decreases |ops|
  {
    hide Inv, Step, Allowed;
    if ops != [] {
      StepInv(lib, s, ops[0]);
      RunInv(lib, Step(lib, s, ops[0]), ops[1..]);
    }
  }

  /** The O(1) checks at acceptance bound the store for good: whatever is
      accepted, updated, rerouted or pruned, at most 65 records are pending on a
      route, 1025 on an account and 4097 overall, and 100000 are retained. */
  lemma ReachableBounds(lib: Library, ops: seq<Op>, route: ChatIdentity, account: string)
    requires RunAllowed(lib, EMPTY, ops)
    ensures var records := Run(lib, EMPTY, ops).records;
            && |PendingOn(records, route)| <= 65
            && Sum(records, Some(account)).pending <= 1025
            && Sum(records, None).pending <= 4097
            && |records| <= 100000
  {
    hide Step, Allowed;
    EmptyInv(lib, EMPTY);
    RunInv(lib, EMPTY, ops);
    var records := Run(lib, EMPTY, ops).records;
    assert RouteBounded(records, route);
    assert AccountBounded(records, account);
  }

  /** No two retained records share a business key, and two that share a semantic
      key differ in that one is a rejection the store itself recorded. */
  lemma ReachableKeys(lib: Library, ops: seq<Op>, a: string, b: string)
    requires RunAllowed(lib, EMPTY, ops)
    requires var records := Run(lib, EMPTY, ops).records; a in records && b in records && a != b
    ensures var records := Run(lib, EMPTY, ops).records;
            && records[a].BusinessKey() != records[b].BusinessKey()
            && (records[a].semanticID != "" && records[b].semanticID != ""
                && records[a].SemanticKey() == records[b].SemanticKey() ==>
                  (Reserved(records[a].reason) && records[a].state.Rejected?)
                    || (Reserved(records[b].reason) && records[b].state.Rejected?))
  {
    hide Step, Allowed, Record.BusinessKey, Record.SemanticKey, HistoryOK, Bounded, RoutesOK;
    EmptyInv(lib, EMPTY);
    RunInv(lib, EMPTY, ops);
  }

  // Pruning

  lemma PrunedHead(s: Store, preserve: ChatIdentity)
    requires s.history != [] && s.history[0].id in s.records && s.now >= s.history[0].expires
    ensures Pruned(s, preserve) == Pruned(Forgotten(s.(history := s.history[1..]), s.history[0].id, preserve), preserve)
  {
  }

  predicate Expired(r: Record, now: int) {
    r.Terminal() && r.updatedAt + HISTORY_TTL <= now
  }

  lemma HeadIsOldest(lib: Library, s: Store, id: string)
    requires Inv(lib, s) && id in s.records && s.records[id].Terminal()
    ensures s.history != [] && s.history[0].id in s.records
    ensures s.history[0].expires <= s.records[id].updatedAt + HISTORY_TTL
  {
    hide RecordsOK, BusinessOK, SemanticOK, RoutesOK, SequencesOK, TasksOK, Bounded;
    var i :| 0 <= i < |s.history| && s.history[i].id == id;
  }

  lemma HeadExpiry(lib: Library, s: Store)
    requires Inv(lib, s) && s.history != []
    ensures s.history[0].id in s.records
    ensures s.records[s.history[0].id].Terminal()
            && s.history[0].expires == s.records[s.history[0].id].updatedAt + HISTORY_TTL
  {
    hide RecordsOK, BusinessOK, SemanticOK, RoutesOK, SequencesOK, TasksOK, Bounded;
  }

  /** Pruning forgets exactly the records that settled at least a day ago:
      because the history is in expiry order, stopping at the first live entry
      leaves nothing expired behind and takes nothing that is still bound. */
  lemma {:induction false} PrunedExactly(lib: Library, s: Store, preserve: ChatIdentity, id: string)
    requires Inv(lib, s)
    ensures id in Pruned(s, preserve).records <==> id in s.records && !Expired(s.records[id], s.now)
    ensures id in Pruned(s, preserve).records ==> Pruned(s, preserve).records[id] == s.records[id]
    decreases |s.history|
  {
    hide Inv;
    PrunedFrame(s, preserve);
    if id in s.records && s.records[id].Terminal() {
      HeadIsOldest(lib, s, id);
    }
    if s.history != [] {
      HeadExpiry(lib, s);
      var head := s.history[0];
      if s.now >= head.expires {
        ForgetHead(lib, s, preserve);
        PrunedHead(s, preserve);
        PrunedExactly(lib, Forgotten(s.(history := s.history[1..]), head.id, preserve), preserve, id);
      }
    }
  }

  // How one step treats a record that is already there

  ghost predicate Continues(r: Record, r': Record) {
    SameOrigin(r, r') && (r.Terminal() ==> r' == r) && (Reserved(r'.reason) ==> Reserved(r.reason))
  }

  lemma {:induction false} ResavedContinues(lib: Library, s: Store, order: seq<string>, change: Change, id: string)
    requires Inv(lib, s) && PendingOnly(change) && id in s.records
    ensures id in Resaved(lib, s, order, change).records
            && Continues(s.records[id], Resaved(lib, s, order, change).records[id])
    decreases |order|
  {
    hide Inv, Kept;
    NamedByID(lib, s);
    if order != [] {
      var first := order[0];
      if first in s.records && change(s.records[first]).Some? {
        var r := change(s.records[first]).value.(updatedAt := s.now);
        SavedInv(lib, s, r);
        KeptSame(lib, r);
        ResavedContinues(lib, Saved(lib, s, r), order[1..], change, id);
      } else {
        ResavedContinues(lib, s, order[1..], change, id);
      }
    }
  }

  lemma AcceptContinues(lib: Library, s: Store, q: Request, id: string)
    requires Inv(lib, s) && Allowed(s, OpAccept(q)) && id in s.records
    ensures var after := Accept(lib, s, q).0.records;
            if id in after then after[id] == s.records[id] else Expired(s.records[id], s.now)
  {
    hide Inv, Pruned, InvalidInput, Prepare, Decide, Publishable, Kept, Expired, AtCapacity;
    PrunedInv(lib, s, q.input.Identity());
    PrunedFrame(s, q.input.Identity());
    PrunedExactly(lib, s, q.input.Identity(), id);
    NamedByID(lib, s);
    IssuedInv(lib, Pruned(s, q.input.Identity()), {q.id, q.revision});
    var pruned := Pruned(s, q.input.Identity()).(issued := s.issued + {q.id, q.revision});
    if InvalidInput(q.input, q.cursor).None? && Prepare(q.input, q.id, s.now).In? {
      PreparedMeaning(q, s.now);
      DecideMeaning(lib, pruned, Prepare(q.input, q.id, s.now).r, q.cursor, q.revision);
      KeptID(lib, Decide(lib, pruned, Prepare(q.input, q.id, s.now).r, q.cursor, q.revision));
    }
  }

  lemma KeptID(lib: Library, v: Verdict)
    ensures v.New? ==> Kept(lib, v.record).recordID == v.record.recordID
  {
  }

  lemma SavedContinues(lib: Library, s: Store, r: Record, id: string)
    requires id in s.records && r.recordID in s.records && SameOrigin(s.records[r.recordID], r)
    requires !s.records[r.recordID].Terminal() && (Reserved(r.reason) ==> Reserved(s.records[r.recordID].reason))
    ensures id in Saved(lib, s, r).records && Continues(s.records[id], Saved(lib, s, r).records[id])
  {
    hide Kept;
    KeptSame(lib, r);
  }

  lemma PendingState(r: Record, allowed: set<State>)
    requires r.state in allowed && forall state <- allowed :: !Final(state)
    ensures !r.Terminal()
  {
  }

  lemma UpdateContinues(lib: Library, s: Store, op: Op, id: string)
    requires Inv(lib, s) && Allowed(s, op) && op.OpUpdate? && id in s.records
    ensures id in Step(lib, s, op).records && Continues(s.records[id], Step(lib, s, op).records[id])
  {
    hide Inv, Saved, Record.Terminal;
    NamedByID(lib, s);
    Unchanged(s.records[id]);
    var OpUpdate(target, allowed, change) := op;
    if target in s.records && s.records[target].state in allowed && change(s.records[target]).Some? {
      PendingState(s.records[target], allowed);
      SavedContinues(lib, s, change(s.records[target]).value.(updatedAt := s.now), id);
    }
  }

  lemma EnsureContinues(lib: Library, s: Store, op: Op, id: string)
    requires Inv(lib, s) && Allowed(s, op) && op.OpEnsure? && id in s.records
    ensures var after := Step(lib, s, op).records;
            if id in after then Continues(s.records[id], after[id]) else Expired(s.records[id], s.now)
  {
    hide *;
    var OpEnsure(route, digest, workspace, session, revision, order) := op;
    PrunedInv(lib, s, route);
    PrunedFrame(s, route);
    PrunedExactly(lib, s, route, id);
    IssuedInv(lib, Pruned(s, route), {revision});
    var pruned := Pruned(s, route).(issued := s.issued + {revision});
    EnsuredRecords(lib, s, op);
    Unchanged(s.records[id]);
    RouteChangesLawful("", "");
    if id in pruned.records {
      ResavedContinues(lib, pruned, order, Quarantining(), id);
    } else {
      ResavedInv(lib, pruned, order, Quarantining());
      SameRecords(pruned, Resaved(lib, pruned, order, Quarantining()));
    }
  }

  /** Only history is forgotten, only pending records are changed, or nothing happens. */
  lemma EnsuredRecords(lib: Library, s: Store, op: Op)
    requires op.OpEnsure?
    ensures var after, pruned := Step(lib, s, op).records, Pruned(s, op.route).(issued := s.issued + {op.revision});
            after == s.records || after == pruned.records
              || after == Resaved(lib, pruned, op.order, Quarantining()).records
  {
    hide Pruned, Resaved, Quarantining, PendingOn, InFlight;
  }

  lemma SameRecords(s: Store, s': Store)
    requires SameFrame(s, s')
    ensures s'.records.Keys == s.records.Keys
  {
  }

  lemma Unchanged(r: Record)
    ensures Continues(r, r)
  {
  }

  /** Records never change identity, settled records never change at all, and a
      record leaves the store only a day after it settled, or when it closes. */
  lemma StepContinues(lib: Library, s: Store, op: Op, id: string)
    requires Inv(lib, s) && Allowed(s, op) && !op.OpClose? && id in s.records
    ensures var after := Step(lib, s, op).records;
            if id in after then Continues(s.records[id], after[id]) else Expired(s.records[id], s.now)
  {
    hide Inv, Accept, Update, EnsureRoute, Resaved, Expired, CheckCursor, PendingOn, Lawful, Continues;
    Unchanged(s.records[id]);
    match op
    case OpAccept(q) => AcceptContinues(lib, s, q, id);
    case OpUpdate(_, _, _) => UpdateContinues(lib, s, op, id);
    case OpEnsure(_, _, _, _, _, _) => EnsureContinues(lib, s, op, id);
    case OpBind(route, revision, session, order) =>
      RouteChangesLawful(revision, session);
      ResavedContinues(lib, s, order, Pinning(revision, session), id);
    case _ =>
  }

  lemma AcceptClock(lib: Library, s: Store, q: Request)
    ensures Accept(lib, s, q).0.now == s.now && s.issued <= Accept(lib, s, q).0.issued
  {
    hide Pruned, InvalidInput, Prepare, Conclude, ValidCursor;
    PrunedFrame(s, q.input.Identity());
    var pruned := Pruned(s, q.input.Identity()).(issued := s.issued + {q.id, q.revision});
    if InvalidInput(q.input, q.cursor).None? && Prepare(q.input, q.id, s.now).In? {
      ConcludeClock(lib, pruned, q, Prepare(q.input, q.id, s.now).r);
    }
  }

  lemma ConcludeClock(lib: Library, s: Store, q: Request, r: Record)
    requires q.cursor.Some? ==> q.cursor.value.generation > 0
    ensures Conclude(lib, s, q, r).0.now == s.now && Conclude(lib, s, q, r).0.issued == s.issued
  {
    hide Decide, Kept, WithCursor, Record.BusinessKey, Record.SemanticKey;
  }

  lemma StepClock(lib: Library, s: Store, op: Op)
    ensures s.now <= Step(lib, s, op).now
    ensures s.issued <= Step(lib, s, op).issued
  {
    hide Pruned, Accept, Resaved, Kept, CheckCursor, PendingOn, RouteOf;
    match op
    case OpAccept(q) => AcceptClock(lib, s, q);
    case OpEnsure(route, _, _, _, revision, order) =>
      PrunedFrame(s, route);
      ResavedFrame(lib, Pruned(s, route).(issued := s.issued + {revision}), order, Quarantining());
    case OpBind(_, revision, session, order) => ResavedFrame(lib, s, order, Pinning(revision, session));
    case _ =>
  }

  lemma {:induction false} ResavedFrame(lib: Library, s: Store, order: seq<string>, change: Change)
    ensures var after := Resaved(lib, s, order, change);
            after.now == s.now && after.issued == s.issued && after.routes == s.routes && after.cursors == s.cursors
    decreases |order|
  {
    hide Kept;
    if order != [] {
      ResavedFrame(lib,
        if order[0] in s.records && change(s.records[order[0]]).Some?
        then Saved(lib, s, change(s.records[order[0]]).value.(updatedAt := s.now)) else s,
        order[1..], change);
    }
  }

  lemma {:induction false} RunClock(lib: Library, s: Store, ops: seq<Op>)
    ensures s.now <= Run(lib, s, ops).now
    decreases |ops|
  {
    hide Step;
    if ops != [] {
      StepClock(lib, s, ops[0]);
      RunClock(lib, Step(lib, s, ops[0]), ops[1..]);
    }
  }

  /** At some point of the run the record had settled, at a time that is a day
      or more before the end. */
  ghost predicate SettledADayBefore(lib: Library, s: Store, ops: seq<Op>, id: string, end: int)
    decreases |ops|
  {
    || (id in s.records && Expired(s.records[id], end))
    || (ops != [] && SettledADayBefore(lib, Step(lib, s, ops[0]), ops[1..], id, end))
  }

  predicate NoClose(ops: seq<Op>) {
    forall i :: 0 <= i < |ops| ==> !ops[i].OpClose?
  }

  /** The record is found under its keys, under the semantic one if it claims it. */
  ghost predicate FoundByKeys(s: Store, id: string) {
    && id in s.records
    && var r := s.records[id];
       && r.BusinessKey() in s.business && s.business[r.BusinessKey()] == id
       && (ClaimsSemantic(r) ==> r.SemanticKey() in s.semantic && s.semantic[r.SemanticKey()] == id)
  }

  /** The deduplication window. A retained record, and with it its business and its
      semantic key, stays in the store through any run until a day after it settled. */
  lemma {:induction false} WindowHolds(lib: Library, s: Store, ops: seq<Op>, id: string)
    requires Inv(lib, s) && RunAllowed(lib, s, ops) && NoClose(ops) && id in s.records
    ensures var end := Run(lib, s, ops);
            || SettledADayBefore(lib, s, ops, id, end.now)
            || (FoundByKeys(end, id) && Continues(s.records[id], end.records[id])
                && end.records[id].BusinessKey() == s.records[id].BusinessKey()
                && end.records[id].SemanticKey() == s.records[id].SemanticKey()
                && (ClaimsSemantic(s.records[id]) ==> ClaimsSemantic(end.records[id])))
    decreases |ops|
  {
    hide Inv, Step, Allowed, FoundByKeys, Record.BusinessKey, Record.SemanticKey;
    if ops == [] {
      Bound(lib, s, id);
    } else {
      var next := Step(lib, s, ops[0]);
      StepInv(lib, s, ops[0]);
      StepContinues(lib, s, ops[0], id);
      RunClock(lib, s, ops);
      if id in next.records {
        SameKeys(s.records[id], next.records[id]);
        WindowHolds(lib, next, ops[1..], id);
      }
    }
  }

  lemma Bound(lib: Library, s: Store, id: string)
    requires Inv(lib, s) && id in s.records
    ensures FoundByKeys(s, id)
  {
    hide RecordsOK, HistoryOK, RoutesOK, SequencesOK, TasksOK, Bounded, Record.BusinessKey, Record.SemanticKey;
  }

  // Answers to a repeated request

  ghost predicate ReachesStore(s: Store, q: Request) {
    && InvalidInput(q.input, q.cursor).None? && q.valid && q.available && !s.closed
    && Prepare(q.input, q.id, s.now).In?
    && (q.cursor.Some? ==>
          q.cursor.value.generation > 0 &&
          CheckCursor(s.cursors, q.input.platform, q.input.accountID, q.cursor.value.generation - 1,
                      q.cursor.value) == NoError)
  }

  /** Telegram reused the update number for other content. */
  predicate OtherContent(r: Record, q: Request, now: int)
  {
    q.input.platform == "telegram" && Prepare(q.input, q.id, now).In? &&
    (r.chatID != q.input.chatID || r.semanticID != q.input.semanticID
     || r.inputDigest != Prepare(q.input, q.id, now).r.inputDigest)
  }

  /** While a record is pending or settled less than a day ago, delivering its
      business key again stores nothing and is answered with that very record;
      only the supplied checkpoint moves. */
  lemma RepetitionIsRecognized(lib: Library, s: Store, q: Request, id: string)
    requires Inv(lib, s) && Allowed(s, OpAccept(q)) && ReachesStore(s, q)
    requires id in s.records && !Expired(s.records[id], s.now)
    requires q.input.BusinessKey() == s.records[id].BusinessKey() && !OtherContent(s.records[id], q, s.now)
    ensures var (s', result) := Accept(lib, s, q);
            && result == ReceiveResult(Duplicate, id, s.records[id].state, s.records[id].reason)
            && s'.records == Pruned(s, q.input.Identity()).records
            && s'.cursors == WithCursor(s.cursors, q.input, q.cursor)
  {
    hide Inv, Pruned, InvalidInput, CheckCursor, Expired, Record.BusinessKey, Prepare, Decide, Record.AccountKey;
    var k := q.input.Identity();
    var r := Prepare(q.input, q.id, s.now).r;
    PreparedMeaning(q, s.now);
    SameKeys(q.input, r);
    NamedByID(lib, s);
    PrunedInv(lib, s, k);
    PrunedFrame(s, k);
    PrunedExactly(lib, s, k, id);
    Bound(lib, Pruned(s, k), id);
    DecidesRepetition(lib, Pruned(s, k).(issued := s.issued + {q.id, q.revision}), r, q.cursor, q.revision, id);
  }

  /** Outside Telegram the same holds for a repeated semantic key under a new business key. */
  lemma SemanticRepetitionIsRecognized(lib: Library, s: Store, q: Request, id: string)
    requires Inv(lib, s) && Allowed(s, OpAccept(q)) && ReachesStore(s, q)
    requires q.input.platform != "telegram" && q.input.semanticID != ""
    requires id in s.records && !Expired(s.records[id], s.now) && ClaimsSemantic(s.records[id])
    requires q.input.SemanticKey() == s.records[id].SemanticKey()
    requires forall x <- s.records :: !Expired(s.records[x], s.now) ==>
               s.records[x].BusinessKey() != q.input.BusinessKey()
    ensures var (s', result) := Accept(lib, s, q);
            && result == ReceiveResult(Duplicate, id, s.records[id].state, s.records[id].reason)
            && s'.records == Pruned(s, q.input.Identity()).records
            && s'.cursors == WithCursor(s.cursors, q.input, q.cursor)
  {
    hide Inv, Pruned, InvalidInput, CheckCursor, Expired, Record.BusinessKey, Record.SemanticKey, Prepare, Decide,
         Record.AccountKey;
    var k := q.input.Identity();
    var r := Prepare(q.input, q.id, s.now).r;
    PreparedMeaning(q, s.now);
    SameKeys(q.input, r);
    NamedByID(lib, s);
    PrunedInv(lib, s, k);
    PrunedFrame(s, k);
    PrunedExactly(lib, s, k, id);
    Bound(lib, Pruned(s, k), id);
    NotBound(lib, s, k, q.input.BusinessKey());
    DecidesSemanticRepetition(lib, Pruned(s, k).(issued := s.issued + {q.id, q.revision}), r, q.cursor, q.revision, id);
  }

  lemma NotBound(lib: Library, s: Store, preserve: ChatIdentity, key: string)
    requires Inv(lib, s) && forall x <- s.records :: !Expired(s.records[x], s.now) ==> s.records[x].BusinessKey() != key
    ensures key !in Pruned(s, preserve).business
  {
    hide Pruned, Expired, Record.BusinessKey, RecordsOK, HistoryOK, SemanticOK, RoutesOK, SequencesOK, TasksOK, Bounded;
    var pruned := Pruned(s, preserve);
    PrunedInv(lib, s, preserve);
    if key in pruned.business {
      var x := pruned.business[key];
      assert x in pruned.records && pruned.records[x].BusinessKey() == key;
      PrunedExactly(lib, s, preserve, x);
    }
  }

  lemma DecidesSemanticRepetition(lib: Library, s: Store, r: Record, cursor: Option<Cursor>, revision: string,
                                  id: string)
    requires cursor.Some? ==>
               cursor.value.generation > 0 && CheckCursor(s.cursors, r.platform, r.accountID,
                                                          cursor.value.generation - 1, cursor.value) == NoError
    requires r.BusinessKey() !in s.business && r.platform != "telegram" && r.semanticID != "" && !Reserved(r.reason)
    requires r.SemanticKey() in s.semantic && s.semantic[r.SemanticKey()] == id && id in s.records
    ensures Decide(lib, s, r, cursor, revision) == Repeated(id)
  {
    hide CheckCursor, Record.BusinessKey, Record.SemanticKey, Admitted;
  }

  lemma DecidesRepetition(lib: Library, s: Store, r: Record, cursor: Option<Cursor>, revision: string, id: string)
    requires cursor.Some? ==>
               cursor.value.generation > 0 && CheckCursor(s.cursors, r.platform, r.accountID,
                                                          cursor.value.generation - 1, cursor.value) == NoError
    requires r.BusinessKey() in s.business && s.business[r.BusinessKey()] == id && id in s.records
    requires r.platform == "telegram" ==>
               s.records[id].chatID == r.chatID && s.records[id].semanticID == r.semanticID
                 && s.records[id].inputDigest == r.inputDigest
    ensures Decide(lib, s, r, cursor, revision) == Repeated(id)
  {
    hide CheckCursor, Record.BusinessKey, Record.SemanticKey, Admitted;
  }

  // Acceptance and its checkpoint

  /** An acceptance and its checkpoint are one step. An answer that names no
      record leaves everything but expired history as it was; an answer that
      names one moved the supplied cursor on by exactly one generation. */
  lemma AcceptIsAtomic(lib: Library, s: Store, q: Request)
    requires Inv(lib, s) && Allowed(s, OpAccept(q))
    ensures var (s', result) := Accept(lib, s, q);
            var pruned := Pruned(s, q.input.Identity());
            && (result.recordID == "" ==>
                  && (s' == s || s' == pruned.(issued := s'.issued))
                  && (result.disposition == Retryable || result.disposition == Refused))
            && (result.recordID != "" ==>
                  && result.recordID in s'.records && s'.records[result.recordID].state == result.state
                  && result.disposition != Retryable
                  && s'.cursors == WithCursor(s.cursors, q.input, q.cursor)
                  && (q.cursor.Some? ==> q.cursor.value.generation == CursorOf(s.cursors,
                                                                               q.input.AccountKey()).generation + 1)
                  && (result.disposition == Duplicate && result.recordID != q.id ==> s'.records == pruned.records)
                  && (result.recordID == q.id ==> s'.records.Keys == pruned.records.Keys + {q.id}))
  {
    hide Inv, Pruned, InvalidInput, Prepare, Conclude, Record.AccountKey;
    var k := q.input.Identity();
    NamedByID(lib, s);
    PrunedInv(lib, s, k);
    PrunedFrame(s, k);
    IssuedInv(lib, Pruned(s, k), {q.id, q.revision});
    var pruned := Pruned(s, k).(issued := s.issued + {q.id, q.revision});
    PreparedOut(q.input, q.id, s.now);
    if InvalidInput(q.input, q.cursor).None? && Prepare(q.input, q.id, s.now).In? {
      PreparedMeaning(q, s.now);
      ConcludeIsAtomic(lib, pruned, q, Prepare(q.input, q.id, s.now).r);
    }
  }

  lemma ConcludeIsAtomic(lib: Library, s: Store, q: Request, r: Record)
    requires Inv(lib, s) && q.id != "" && q.id in s.issued && q.id !in s.records && q.revision in s.issued
    requires r.recordID == q.id && r.Identity() == q.input.Identity() && r.updatedAt == s.now && !Reserved(r.reason)
    requires (r.state.Received? || r.state.Rejected?) && (q.cursor.Some? ==> q.cursor.value.generation > 0)
    ensures var (s', result) := Conclude(lib, s, q, r);
            && (result.recordID == "" ==> s' == s && result.disposition == Retryable)
            && (result.recordID != "" ==>
                  && result.recordID in s'.records && s'.records[result.recordID].state == result.state
                  && result.disposition != Retryable
                  && s'.cursors == WithCursor(s.cursors, q.input, q.cursor)
                  && (q.cursor.Some? ==> q.cursor.value.generation == CursorOf(s.cursors,
                                                                               q.input.AccountKey()).generation + 1)
                  && (result.disposition == Duplicate && result.recordID != q.id ==> s'.records == s.records)
                  && (result.recordID == q.id ==> s'.records.Keys == s.records.Keys + {q.id}))
  {
    hide Inv, Decide, Publishable, Published, Record.AccountKey;
    NamedByID(lib, s);
    SameKeys(q.input, r);
    DecideMeaning(lib, s, r, q.cursor, q.revision);
    DecidedCursor(lib, s, r, q.cursor, q.revision);
    var v := Decide(lib, s, r, q.cursor, q.revision);
    if v.New? {
      PublishedFacts(lib, s, v.record, v.route, q.cursor);
      SameKeys(r, v.record);
      NewState(lib, s, r, q.cursor, q.revision);
    }
  }

  lemma PreparedOut(r: Record, id: string, now: int)
    ensures Prepare(r, id, now).Out? ==>
              Prepare(r, id, now).result.disposition == Refused && Prepare(r, id, now).result.recordID == ""
  {
  }

  lemma PublishedFacts(lib: Library, s: Store, r: Record, route: Route, cursor: Option<Cursor>)
    ensures var s' := Published(lib, s, r, route, cursor);
            && s'.records.Keys == s.records.Keys + {r.recordID} && s'.records[r.recordID].state == r.state
            && s'.cursors == WithCursor(s.cursors, r, cursor)
  {
    hide Kept, Record.BusinessKey, Record.SemanticKey, Record.AccountKey;
    KeptSame(lib, r);
  }

  lemma NewState(lib: Library, s: Store, r: Record, cursor: Option<Cursor>, revision: string)
    requires cursor.Some? ==> cursor.value.generation > 0
    ensures var v := Decide(lib, s, r, cursor, revision); v.New? ==>
              v.disposition == Accepted || v.disposition == Duplicate
  {
    hide CheckCursor, Distinguished, AtCapacity, Record.AccountKey, Record.BusinessKey, Record.SemanticKey;
  }

  lemma DecidedCursor(lib: Library, s: Store, r: Record, cursor: Option<Cursor>, revision: string)
    requires cursor.Some? ==> cursor.value.generation > 0
    ensures !Decide(lib, s, r, cursor, revision).Turned? && cursor.Some? ==>
              CheckCursor(s.cursors, r.platform, r.accountID, cursor.value.generation - 1, cursor.value) == NoError
              && CursorOf(s.cursors, r.AccountKey()).generation + 1 == cursor.value.generation
  {
    hide Deduplicated, Distinguished, Admitted, ValidCursor, ValidAccount;
  }

  // Cursors over runs

  /** Each stored cursor is valid for the platform its key begins with. */
  ghost predicate CursorsOK(cursors: map<string, Cursor>) {
    forall key <- cursors :: exists platform, account ::
      key == Key2(platform, account) && ValidCursor(platform, cursors[key])
  }

  /** One checkpoint: the next generation, and for WeChat a later batch. */
  ghost predicate Advances(before: Cursor, after: Cursor) {
    && after.generation == before.generation + 1
    && (before.wechat.Some? ==>
          after.wechat.Some? && before.wechat.value.batchVersion < after.wechat.value.batchVersion)
  }

  lemma CommittedCursor(cursors: map<string, Cursor>, platform: string, account: string, expected: nat, next: Cursor)
    requires CursorsOK(cursors) && CheckCursor(cursors, platform, account, expected, next) == NoError
    ensures CursorsOK(cursors[Key2(platform, account) := next])
    ensures Advances(CursorOf(cursors, Key2(platform, account)), next)
  {
    hide ValidAccount;
    var key := Key2(platform, account);
    assert ValidCursor(platform, next);
    if key in cursors && cursors[key].wechat.Some? {
      var p, a :| key == Key2(p, a) && ValidCursor(p, cursors[key]);
      assert key[0] == p[0] == platform[0];
    }
  }

  lemma StepCursors(lib: Library, s: Store, op: Op, key: string)
    requires Inv(lib, s) && Allowed(s, op) && !op.OpClose? && CursorsOK(s.cursors)
    ensures var after := Step(lib, s, op).cursors;
            && CursorsOK(after)
            && (CursorOf(after, key) == CursorOf(s.cursors, key)
                || Advances(CursorOf(s.cursors, key), CursorOf(after, key)))
  {
    hide Inv, CursorsOK, Advances, CheckCursor, Pruned, Resaved, Accept, Record.AccountKey, Record.BusinessKey,
         Record.SemanticKey, Saved, ValidCursor;
    match op
    case OpAccept(q) =>
      AcceptCursors(lib, s, q, key);
    case OpCursor(platform, account, expected, next, valid) =>
      if CheckCursor(s.cursors, platform, account, expected, next) == NoError {
        CommittedCursor(s.cursors, platform, account, expected, next);
      }
    case OpEnsure(route, _, _, _, revision, order) =>
      PrunedFrame(s, route);
      ResavedFrame(lib, Pruned(s, route).(issued := s.issued + {revision}), order, Quarantining());
    case OpBind(_, revision, session, order) => ResavedFrame(lib, s, order, Pinning(revision, session));
    case OpUpdate(id, allowed, change) => UpdateCursors(lib, s, id, allowed, change);
    case _ =>
  }

  lemma UpdateCursors(lib: Library, s: Store, id: string, allowed: set<State>, change: Change)
    ensures Update(lib, s, id, allowed, change).0.cursors == s.cursors
  {
  }

  lemma AcceptCursors(lib: Library, s: Store, q: Request, key: string)
    requires Inv(lib, s) && Allowed(s, OpAccept(q)) && CursorsOK(s.cursors)
    ensures var after := Accept(lib, s, q).0.cursors;
            && CursorsOK(after)
            && (CursorOf(after, key) == CursorOf(s.cursors, key)
                || Advances(CursorOf(s.cursors, key), CursorOf(after, key)))
  {
    hide Inv, CursorsOK, Advances, Pruned, InvalidInput, Prepare, Conclude, ValidCursor, Record.AccountKey;
    PrunedFrame(s, q.input.Identity());
    var pruned := Pruned(s, q.input.Identity()).(issued := s.issued + {q.id, q.revision});
    if InvalidInput(q.input, q.cursor).None? && Prepare(q.input, q.id, s.now).In? {
      NamedByID(lib, s);
      PrunedInv(lib, s, q.input.Identity());
      IssuedInv(lib, Pruned(s, q.input.Identity()), {q.id, q.revision});
      PreparedMeaning(q, s.now);
      ConcludeCursors(lib, pruned, q, Prepare(q.input, q.id, s.now).r, key);
    }
  }

  lemma ConcludeCursors(lib: Library, s: Store, q: Request, r: Record, key: string)
    requires Inv(lib, s) && q.id != "" && q.id in s.issued && q.id !in s.records && q.revision in s.issued
             && CursorsOK(s.cursors)
    requires r.recordID == q.id && r.Identity() == q.input.Identity() && r.updatedAt == s.now && !Reserved(r.reason)
    requires (r.state.Received? || r.state.Rejected?) && (q.cursor.Some? ==> q.cursor.value.generation > 0)
    ensures var after := Conclude(lib, s, q, r).0.cursors;
            && CursorsOK(after)
            && (CursorOf(after, key) == CursorOf(s.cursors, key)
                || Advances(CursorOf(s.cursors, key), CursorOf(after, key)))
  {
    hide Inv, CursorsOK, Advances, CheckCursor, Conclude, Decide, ValidCursor;
    ConcludeIsAtomic(lib, s, q, r);
    DecidedCursor(lib, s, r, q.cursor, q.revision);
    TurnedKeeps(lib, s, q, r);
    if q.cursor.Some? && !Decide(lib, s, r, q.cursor, q.revision).Turned? {
      CommittedCursor(s.cursors, r.platform, r.accountID, q.cursor.value.generation - 1, q.cursor.value);
    }
  }

  lemma TurnedKeeps(lib: Library, s: Store, q: Request, r: Record)
    requires q.cursor.Some? ==> q.cursor.value.generation > 0
    ensures Decide(lib, s, r, q.cursor, q.revision).Turned? ==> Conclude(lib, s, q, r).0 == s
  {
    hide Decide;
  }

  /** How often a run moved the checkpoint of one account. */
  ghost function Moves(lib: Library, s: Store, ops: seq<Op>, key: string): nat
    decreases |ops|
  {
    if ops == [] then 0
    else
      var next := Step(lib, s, ops[0]);
      (if CursorOf(next.cursors, key) == CursorOf(s.cursors, key) then 0 else 1) + Moves(lib, next, ops[1..], key)
  }

  /** Over any run a cursor's generation counts its checkpoints: none is skipped
      or repeated. WeChat batch versions increase with every one of them. */
  lemma {:induction false} GenerationsCount(lib: Library, s: Store, ops: seq<Op>, key: string)
    requires Inv(lib, s) && RunAllowed(lib, s, ops) && NoClose(ops) && CursorsOK(s.cursors)
    ensures var first := CursorOf(s.cursors, key);
            var last := CursorOf(Run(lib, s, ops).cursors, key);
            && last.generation == first.generation + Moves(lib, s, ops, key)
            && (first.wechat.Some? ==>
                  && last.wechat.Some?
                  && last.wechat.value.batchVersion >= first.wechat.value.batchVersion + Moves(lib, s, ops, key))
    decreases |ops|
  {
    hide Inv, CursorsOK, Step, Allowed;
    if ops != [] {
      StepInv(lib, s, ops[0]);
      StepCursors(lib, s, ops[0], key);
      GenerationsCount(lib, Step(lib, s, ops[0]), ops[1..], key);
    }
  }

  // Route revisions over runs

  /** The route's own revision, or one that was never used before. */
  ghost predicate KeptOrIssued(s: Store, k: ChatIdentity, revision: string) {
    (k in s.routes && revision == s.routes[k].revision) || revision !in s.issued
  }

  lemma EnsureRevisions(lib: Library, s: Store, op: Op, k: ChatIdentity)
    requires Inv(lib, s) && Allowed(s, op) && op.OpEnsure?
    ensures var after := Step(lib, s, op).routes;
            k in after ==> KeptOrIssued(s, k, after[k].revision)
  {
    hide Inv, Pruned, Resaved, Quarantining, InFlight, PendingOn;
    PrunedFrame(s, op.route);
    ResavedFrame(lib, Pruned(s, op.route).(issued := s.issued + {op.revision}), op.order, Quarantining());
  }

  lemma StepRevisions(lib: Library, s: Store, op: Op, k: ChatIdentity)
    requires Inv(lib, s) && Allowed(s, op)
    ensures var after := Step(lib, s, op).routes;
            k in after ==> KeptOrIssued(s, k, after[k].revision)
  {
    hide Inv, Resaved, Accept, EnsureRoute, Record.AccountKey, Record.BusinessKey, Record.SemanticKey, Kept,
         CheckCursor;
    match op
    case OpAccept(q) => AcceptRevisions(lib, s, q, k);
    case OpEnsure(_, _, _, _, _, _) => EnsureRevisions(lib, s, op, k);
    case OpBind(_, revision, session, order) => ResavedFrame(lib, s, order, Pinning(revision, session));
    case _ =>
  }

  lemma DecidedRoute(lib: Library, s: Store, r: Record, cursor: Option<Cursor>, revision: string)
    requires cursor.Some? ==> cursor.value.generation > 0
    ensures var v := Decide(lib, s, r, cursor, revision);
            v.New? ==> v.route.revision == if v.record.Identity() in s.routes then
              s.routes[v.record.Identity()].revision else revision
  {
    hide CheckCursor, Deduplicated, Distinguished, AtCapacity;
  }

  lemma AcceptRevisions(lib: Library, s: Store, q: Request, k: ChatIdentity)
    requires Inv(lib, s) && Allowed(s, OpAccept(q))
    ensures var after := Accept(lib, s, q).0.routes;
            k in after ==> KeptOrIssued(s, k, after[k].revision)
  {
    hide Inv, Pruned, InvalidInput, Prepare, Kept, Decide, Record.AccountKey, Record.BusinessKey, Record.SemanticKey;
    PrunedFrame(s, q.input.Identity());
    if InvalidInput(q.input, q.cursor).None? && Prepare(q.input, q.id, s.now).In? {
      DecidedRoute(lib, Pruned(s, q.input.Identity()).(issued := s.issued + {q.id, q.revision}),
                   Prepare(q.input, q.id, s.now).r, q.cursor, q.revision);
    }
  }

  /** `revision` was handed out, and the route no longer carries it. */
  ghost predicate Superseded(s: Store, k: ChatIdentity, revision: string) {
    revision in s.issued && !(k in s.routes && s.routes[k].revision == revision)
  }

  /** Once a route has moved on from a revision, no later run brings it back:
      finishing the change that revision began is refused and changes nothing. */
  lemma {:induction false} StaleFinishIsRefused(lib: Library, s: Store, ops: seq<Op>, k: ChatIdentity, revision: string)
    requires Inv(lib, s) && RunAllowed(lib, s, ops) && Superseded(s, k, revision)
    ensures var end := Run(lib, s, ops);
            && Superseded(end, k, revision)
            && forall digest, workspace, session ::
                 var (after, error) := FinishRouteChange(end, k, revision, digest, workspace, session);
                 after == end && error != NoError
    decreases |ops|
  {
    hide Inv, Step, Allowed;
    if ops != [] {
      StepInv(lib, s, ops[0]);
      StepRevisions(lib, s, ops[0], k);
      StepClock(lib, s, ops[0]);
      StaleFinishIsRefused(lib, Step(lib, s, ops[0]), ops[1..], k, revision);
    }
  }

  /** No task survives a new route identity: when a step gives the route another
      revision or digest, every task that was pending on it is settled or was not there. */
  lemma NoTaskSurvives(lib: Library, s: Store, op: Op, id: string)
    requires Inv(lib, s) && Allowed(s, op) && !op.OpClose?
    requires id in s.records && s.records[id].kind == "task" && !s.records[id].Terminal()
    requires var k := s.records[id].Identity();
             k in Step(lib, s, op).routes && k in s.routes &&
             (Step(lib, s, op).routes[k].revision != s.routes[k].revision
              || Step(lib, s, op).routes[k].authorizationDigest != s.routes[k].authorizationDigest
              || Step(lib, s, op).routes[k].phase != "active")
    ensures id in Step(lib, s, op).records && Step(lib, s, op).records[id].Terminal()
  {
    hide Step, Allowed, RecordsOK, HistoryOK, BusinessOK, SemanticOK, SequencesOK, Bounded;
    StepInv(lib, s, op);
    StepContinues(lib, s, op, id);
  }
}
