/** What every reachable ingress store satisfies. */
module IngressInvariant {
  import opened IngressTypes
  import opened IngressTally
  import MapSum
  import opened IngressSpec

  ghost predicate RecordsOK(lib: Library, records: map<string, Record>, issued: set<string>) {
    forall id <- records ::
      && records[id].recordID == id && id != "" && id in issued
      && !records[id].state.Unset?
      && records[id].size == lib.RecordSize(records[id])
      && (records[id].Terminal() ==> records[id].text == "")
  }

  ghost predicate InHistory(history: seq<HistoryEntry>, id: string) {
    exists i :: 0 <= i < |history| && history[i].id == id
  }

  /** The live history is the terminal records, once each, in expiry order. */
  ghost predicate HistoryOK(records: map<string, Record>, history: seq<HistoryEntry>, now: int) {
    && (forall i :: 0 <= i < |history| ==>
          && history[i].id in records && records[history[i].id].Terminal()
          && history[i].expires == records[history[i].id].updatedAt + HISTORY_TTL <= now + HISTORY_TTL)
    && (forall i, j :: 0 <= i < j < |history| ==>
        history[i].id != history[j].id && history[i].expires <= history[j].expires)
    && (forall id <- records :: records[id].Terminal() ==> InHistory(history, id))
  }

  /** One record per business key. */
  ghost predicate BusinessOK(records: map<string, Record>, business: map<string, string>) {
    && (forall id <- records :: records[id].BusinessKey() in business && business[records[id].BusinessKey()] == id)
    && (forall key <- business :: business[key] in records && records[business[key]].BusinessKey() == key)
  }

  /** One record per semantic key, apart from the store's own rejections. */
  ghost predicate SemanticOK(records: map<string, Record>, semantic: map<string, string>) {
    && (forall key <- semantic :: semantic[key] in records && records[semantic[key]].SemanticKey() == key
                                  && ClaimsSemantic(records[semantic[key]]))
    && (forall id <- records :: ClaimsSemantic(records[id]) ==>
          records[id].SemanticKey() in semantic && semantic[records[id].SemanticKey()] == id)
    && (forall id <- records :: Reserved(records[id].reason) ==> records[id].state.Rejected?)
  }

  ghost predicate RoutesOK(records: map<string, Record>, routes: map<ChatIdentity, Route>, issued: set<string>) {
    && (forall id <- records :: records[id].Identity() in routes)
    && (forall k <- routes :: routes[k].identity == k && routes[k].revision in issued)
  }

  /** Sequences on a route are distinct and within the route's counter. */
  ghost predicate SequencesOK(records: map<string, Record>, routes: map<ChatIdentity, Route>) {
    && (forall id <- records :: records[id].Identity() in routes ==>
        0 < records[id].sequence <= routes[records[id].Identity()].sequence)
    && (forall a, b :: a in records && b in records && a != b && records[a].Identity() == records[b].Identity() ==>
          records[a].sequence != records[b].sequence)
  }

  /** A pending task belongs to its route as the route is now. */
  ghost predicate TasksOK(records: map<string, Record>, routes: map<ChatIdentity, Route>) {
    forall id <- records ::
      !records[id].Terminal() && records[id].kind == "task" && records[id].Identity() in routes ==>
      OnCurrentRoute(records[id], routes[records[id].Identity()])
  }

  ghost predicate AccountBounded(records: map<string, Record>, account: string) {
    var t := Sum(records, Some(account));
    t.pending <= 1025 && t.pending + t.tombstones <= HISTORY_LIMIT
  }

  ghost predicate RouteBounded(records: map<string, Record>, route: ChatIdentity) {
    |PendingOn(records, route)| <= 65
  }

  ghost predicate Bounded(records: map<string, Record>) {
    && |records| <= HISTORY_LIMIT
    && Sum(records, None).pending <= 4097
    && (forall account :: AccountBounded(records, account))
    && (forall route :: RouteBounded(records, route))
  }

  ghost predicate Inv(lib: Library, s: Store) {
    && RecordsOK(lib, s.records, s.issued)
    && HistoryOK(s.records, s.history, s.now)
    && BusinessOK(s.records, s.business)
    && SemanticOK(s.records, s.semantic)
    && RoutesOK(s.records, s.routes, s.issued)
    && SequencesOK(s.records, s.routes)
    && TasksOK(s.records, s.routes)
    && Bounded(s.records)
  }

  lemma SameKeys(a: Record, b: Record)
    requires a.Identity() == b.Identity()
    ensures a.AccountKey() == b.AccountKey()
    ensures a.businessID == b.businessID ==> a.BusinessKey() == b.BusinessKey()
    ensures a.semanticID == b.semanticID ==> a.SemanticKey() == b.SemanticKey()
  {
  }

  // Removing an expired record

  lemma BoundedRemove(records: map<string, Record>, id: string)
    requires Bounded(records) && id in records
    ensures Bounded(records - {id})
  {
    hide Sum, Record.AccountKey;
    var fewer := records - {id};
    MapSum.OneLess(records, id);
    SumRemove(records, id, None);
    forall account: string
      ensures AccountBounded(fewer, account)
    {
      assert AccountBounded(records, account);
      SumRemove(records, id, Some(account));
    }
    forall route
      ensures RouteBounded(fewer, route)
    {
      assert RouteBounded(records, route);
      Subset(PendingOn(fewer, route), PendingOn(records, route));
    }
  }

  lemma Subset<T>(a: set<T>, b: set<T>)
    requires a <= b
    ensures |a| <= |b|
  {
    if a != {} {
      var x :| x in a;
      Subset(a - {x}, b - {x});
    }
  }

  lemma HistoryPop(records: map<string, Record>, history: seq<HistoryEntry>, now: int)
    requires HistoryOK(records, history, now) && history != []
    ensures HistoryOK(records - {history[0].id}, history[1..], now)
  {
    var id0 := history[0].id;
    var rest := history[1..];
    forall i | 0 <= i < |rest|
      ensures rest[i] == history[i + 1]
    {
    }
    forall id | id in records - {id0} && records[id].Terminal()
      ensures InHistory(rest, id)
    {
      var i :| 0 <= i < |history| && history[i].id == id;
      assert rest[i - 1] == history[i];
    }
  }

  lemma BusinessRemove(records: map<string, Record>, business: map<string, string>, id: string)
    requires BusinessOK(records, business) && id in records
    ensures BusinessOK(records - {id}, Unbound(business, records[id].BusinessKey(), id))
  {
    hide Record.BusinessKey;
  }

  lemma SemanticRemove(records: map<string, Record>, semantic: map<string, string>, id: string)
    requires SemanticOK(records, semantic) && id in records
    ensures SemanticOK(records - {id}, Unbound(semantic, records[id].SemanticKey(), id))
  {
    hide Record.SemanticKey;
  }

  lemma RoutesRemove(records: map<string, Record>, routes: map<ChatIdentity, Route>, issued: set<string>, id: string,
                     k: ChatIdentity, preserve: ChatIdentity)
    requires RoutesOK(records, routes, issued) && SequencesOK(records, routes) && TasksOK(records, routes)
             && id in records
    ensures var left := records - {id};
            var routes' := if OnRoute(left, k) == {} && k != preserve then routes - {k} else routes;
            RoutesOK(left, routes', issued) && SequencesOK(left, routes') && TasksOK(left, routes')
  {
    if OnRoute(records - {id}, k) == {} {
      forall x | x in records - {id}
        ensures records[x].Identity() != k
      {
        assert x !in OnRoute(records - {id}, k);
      }
    }
  }

  lemma RecordsRemove(lib: Library, records: map<string, Record>, issued: set<string>, id: string)
    requires RecordsOK(lib, records, issued)
    ensures RecordsOK(lib, records - {id}, issued)
  {
  }

  lemma ForgetHead(lib: Library, s: Store, preserve: ChatIdentity)
    requires Inv(lib, s) && s.history != []
    ensures s.history[0].id in s.records
    ensures Inv(lib, Forgotten(s.(history := s.history[1..]), s.history[0].id, preserve))
  {
    assert s.history[0].id in s.records;
    hide RecordsOK, HistoryOK, BusinessOK, SemanticOK, RoutesOK, SequencesOK, TasksOK, Bounded, Record.BusinessKey,
         Record.SemanticKey, Unbound, OnRoute;
    var id := s.history[0].id;
    var k := s.records[id].Identity();
    RecordsRemove(lib, s.records, s.issued, id);
    HistoryPop(s.records, s.history, s.now);
    BoundedRemove(s.records, id);
    BusinessRemove(s.records, s.business, id);
    SemanticRemove(s.records, s.semantic, id);
    RoutesRemove(s.records, s.routes, s.issued, id, k, preserve);
  }

  lemma {:induction false} PrunedInv(lib: Library, s: Store, preserve: ChatIdentity)
    requires Inv(lib, s)
    ensures Inv(lib, Pruned(s, preserve))
    decreases |s.history|
  {
    hide Inv;
    if s.history != [] {
      ForgetHead(lib, s, preserve);
      var entry := s.history[0];
      if s.now >= entry.expires {
        PrunedInv(lib, Forgotten(s.(history := s.history[1..]), entry.id, preserve), preserve);
      }
    }
  }

  // Saving a changed record

  ghost predicate Successor(s: Store, r: Record) {
    && r.recordID in s.records && !s.records[r.recordID].Terminal()
    && SameOrigin(s.records[r.recordID], r)
    && !r.state.Unset? && r.updatedAt == s.now
    && (Reserved(r.reason) ==> Reserved(s.records[r.recordID].reason))
  }

  lemma KeptSame(lib: Library, r: Record)
    ensures SameOrigin(r, Kept(lib, r)) && Kept(lib, r).state == r.state
    ensures Kept(lib, r).reason == r.reason && Kept(lib, r).updatedAt == r.updatedAt
    ensures Kept(lib, r).size == lib.RecordSize(Kept(lib, r))
    ensures r.Terminal() ==> Kept(lib, r).text == ""
  {
    var body := if r.Terminal() then r.(text := "") else r;
    assert Kept(lib, r).(statusQuery := false, size := 0) == body.(statusQuery := false, size := 0);
  }

  lemma HistoryPush(records: map<string, Record>, history: seq<HistoryEntry>, now: int, r: Record)
    requires HistoryOK(records, history, now)
    requires r.recordID in records ==> !records[r.recordID].Terminal()
    requires r.updatedAt == now
    ensures HistoryOK(records[r.recordID := r],
                      if r.Terminal() then history + [HistoryEntry(r.recordID, now + HISTORY_TTL)] else history, now)
  {
    var records' := records[r.recordID := r];
    var history' := if r.Terminal() then history + [HistoryEntry(r.recordID, now + HISTORY_TTL)] else history;
    forall i | 0 <= i < |history|
      ensures history'[i] == history[i] && history[i].id != r.recordID
    {
    }
    forall id | id in records' && records'[id].Terminal()
      ensures InHistory(history', id)
    {
      if id == r.recordID {
        assert history'[|history|].id == id;
      } else {
        var i :| 0 <= i < |history| && history[i].id == id;
        assert history'[i].id == id;
      }
    }
  }

  lemma AccountReplace(records: map<string, Record>, r: Record, account: string)
    requires AccountBounded(records, account) && r.recordID in records && !records[r.recordID].Terminal()
    requires r.AccountKey() == records[r.recordID].AccountKey()
    ensures AccountBounded(records[r.recordID := r], account)
  {
    hide Record.AccountKey, Sum;
    SumReplace(records, r, Some(account));
  }

  lemma PendingReplace(records: map<string, Record>, r: Record, route: ChatIdentity)
    requires RouteBounded(records, route) && r.recordID in records && !records[r.recordID].Terminal()
    requires r.Identity() == records[r.recordID].Identity()
    ensures RouteBounded(records[r.recordID := r], route)
  {
    Subset(PendingOn(records[r.recordID := r], route), PendingOn(records, route));
  }

  lemma BoundedReplace(records: map<string, Record>, r: Record)
    requires Bounded(records) && r.recordID in records && !records[r.recordID].Terminal()
    requires r.Identity() == records[r.recordID].Identity()
    ensures Bounded(records[r.recordID := r])
  {
    hide Record.AccountKey, AccountBounded, RouteBounded, Sum, PendingOn;
    SameKeys(r, records[r.recordID]);
    var after := records[r.recordID := r];
    assert after.Keys == records.Keys;
    SumReplace(records, r, None);
    forall account: string
      ensures AccountBounded(after, account)
    {
      AccountReplace(records, r, account);
    }
    forall route
      ensures RouteBounded(after, route)
    {
      PendingReplace(records, r, route);
    }
  }

  lemma KeysReplace(records: map<string, Record>, business: map<string, string>, semantic: map<string, string>,
                    r: Record)
    requires BusinessOK(records, business) && SemanticOK(records, semantic) && r.recordID in records
    requires SameOrigin(records[r.recordID], r) && !records[r.recordID].Terminal()
    requires Reserved(r.reason) ==> Reserved(records[r.recordID].reason)
    ensures BusinessOK(records[r.recordID := r], business) && SemanticOK(records[r.recordID := r], semantic)
  {
    hide Record.BusinessKey, Record.SemanticKey, Record.AccountKey;
    SameKeys(r, records[r.recordID]);
  }

  lemma RoutesReplace(records: map<string, Record>, routes: map<ChatIdentity, Route>, issued: set<string>, r: Record)
    requires RoutesOK(records, routes, issued) && SequencesOK(records, routes) && TasksOK(records, routes)
    requires r.recordID in records && SameOrigin(records[r.recordID], r) && !records[r.recordID].Terminal()
    ensures RoutesOK(records[r.recordID := r], routes, issued)
    ensures SequencesOK(records[r.recordID := r], routes) && TasksOK(records[r.recordID := r], routes)
  {
  }

  lemma SavedInv(lib: Library, s: Store, r: Record)
    requires Inv(lib, s) && Successor(s, r)
    ensures Inv(lib, Saved(lib, s, r))
    ensures Saved(lib, s, r).records.Keys == s.records.Keys
  {
    hide Bounded, BusinessOK, SemanticOK, HistoryOK, RoutesOK, SequencesOK, TasksOK, Record.BusinessKey,
         Record.SemanticKey, Record.AccountKey, Kept;
    var kept := Kept(lib, r);
    KeptSame(lib, r);
    HistoryPush(s.records, s.history, s.now, kept);
    BoundedReplace(s.records, kept);
    KeysReplace(s.records, s.business, s.semantic, kept);
    RoutesReplace(s.records, s.routes, s.issued, kept);
  }

  lemma NamedByID(lib: Library, s: Store)
    requires Inv(lib, s)
    ensures forall id <- s.records ::
              s.records[id].recordID == id && id != "" && id in s.issued && !s.records[id].state.Unset?
  {
  }

  lemma UpdateInv(lib: Library, s: Store, id: string, allowed: set<State>, change: Change)
    requires Inv(lib, s) && Lawful(change) && forall state <- allowed :: !Final(state)
    ensures Inv(lib, Update(lib, s, id, allowed, change).0)
  {
    hide Inv, Saved;
    assert id in s.records ==> s.records[id].recordID == id by {
      NamedByID(lib, s);
    }
    if !s.closed && id in s.records && s.records[id].state in allowed && change(s.records[id]).Some? {
      SavedInv(lib, s, change(s.records[id]).value.(updatedAt := s.now));
    }
  }

  // Saving several records of a route

  /** A change made only to pending records, as the route operations do. */
  ghost predicate PendingOnly(change: Change) {
    Lawful(change) && forall r :: change(r).Some? ==> !r.Terminal()
  }

  lemma RouteChangesLawful(revision: string, session: string)
    ensures PendingOnly(Quarantining()) && PendingOnly(Pinning(revision, session))
  {
  }

  ghost predicate SameFrame(s: Store, s': Store) {
    && s'.records.Keys == s.records.Keys && s'.routes == s.routes && s'.business == s.business
    && s'.semantic == s.semantic && s'.cursors == s.cursors
    && s'.now == s.now && s'.closed == s.closed && s'.issued == s.issued
  }

  lemma {:induction false} ResavedInv(lib: Library, s: Store, order: seq<string>, change: Change)
    requires Inv(lib, s) && PendingOnly(change)
    ensures Inv(lib, Resaved(lib, s, order, change)) && SameFrame(s, Resaved(lib, s, order, change))
    decreases |order|
  {
    hide Inv, Kept;
    NamedByID(lib, s);
    if order != [] {
      var id := order[0];
      if id in s.records && change(s.records[id]).Some? {
        var r := change(s.records[id]).value.(updatedAt := s.now);
        SavedInv(lib, s, r);
        var next := Saved(lib, s, r);
        ResavedInv(lib, next, order[1..], change);
      } else {
        ResavedInv(lib, s, order[1..], change);
      }
    }
  }

  /** A record that is not visited, or not selected, is not touched; one that is, is changed once. */
  lemma {:induction false} ResavedAt(lib: Library, s: Store, order: seq<string>, change: Change, id: string)
    requires Inv(lib, s) && PendingOnly(change) && id in s.records
    requires forall i, j :: 0 <= i < j < |order| ==> order[i] != order[j]
    ensures Resaved(lib, s, order, change).records.Keys == s.records.Keys
    ensures var after := Resaved(lib, s, order, change).records[id];
            after == if id in order && change(s.records[id]).Some?
                     then Kept(lib, change(s.records[id]).value.(updatedAt := s.now)) else s.records[id]
    decreases |order|
  {
    hide Inv, Kept;
    NamedByID(lib, s);
    if order != [] {
      var first := order[0];
      var rest := order[1..];
      if first in s.records && change(s.records[first]).Some? {
        var r := change(s.records[first]).value.(updatedAt := s.now);
        SavedInv(lib, s, r);
        KeptSame(lib, r);
        var next := Saved(lib, s, r);
        ResavedAt(lib, next, rest, change, id);
        if first == id {
          assert id !in rest;
        }
      } else {
        ResavedAt(lib, s, rest, change, id);
      }
      assert id in order <==> id == first || id in rest;
    }
  }

  // Replacing a route

  lemma RouteInv(lib: Library, s: Store, k: ChatIdentity, route: Route)
    requires Inv(lib, s)
    requires route.identity == k && route.revision in s.issued && route.sequence == RouteOf(s, k).sequence
    requires forall id <- s.records ::
               !s.records[id].Terminal() && s.records[id].kind == "task" && s.records[id].Identity() == k ==>
               OnCurrentRoute(s.records[id], route)
    ensures Inv(lib, s.(routes := s.routes[k := route]))
  {
    hide RecordsOK, HistoryOK, BusinessOK, SemanticOK, Bounded;
  }

  lemma IssuedInv(lib: Library, s: Store, more: set<string>)
    requires Inv(lib, s)
    ensures Inv(lib, s.(issued := s.issued + more))
  {
    hide HistoryOK, BusinessOK, SemanticOK, SequencesOK, TasksOK, Bounded;
  }

  /** After its pending records are quarantined, nothing is pending on the route. */
  lemma QuarantineEmpties(lib: Library, s: Store, route: ChatIdentity, order: seq<string>)
    requires Inv(lib, s) && Enumerates(order, PendingOn(s.records, route))
    requires forall id <- PendingOn(s.records, route) :: !InFlight(s.records[id].state)
    ensures PendingOn(Resaved(lib, s, order, Quarantining()).records, route) == {}
  {
    RouteChangesLawful("", "");
    var after := Resaved(lib, s, order, Quarantining()).records;
    forall id | id in s.records
      ensures id in after && (after[id].Identity() == route ==> after[id].Terminal())
    {
      ResavedAt(lib, s, order, Quarantining(), id);
      var r := s.records[id];
      KeptSame(lib, r.(state := Quarantined, reason := "route_identity_changed").(updatedAt := s.now));
      if r.Identity() == route && !r.Terminal() {
        assert id in PendingOn(s.records, route);
        assert id in (set x | x in order);
        assert r.state.Received?;
      }
    }
    ResavedInv(lib, s, order, Quarantining());
  }

  lemma EnsureInv(lib: Library, s: Store, route: ChatIdentity, digest: string, workspace: string, session: string,
                  revision: string, order: seq<string>)
    requires Inv(lib, s) && Fresh(s, revision) && Enumerates(order, PendingOn(Pruned(s, route).records, route))
    ensures Inv(lib, EnsureRoute(lib, s, route, digest, workspace, session, revision, order).0)
  {
    hide Inv, Pruned, Resaved;
    PrunedInv(lib, s, route);
    PrunedFrame(s, route);
    IssuedInv(lib, Pruned(s, route), {revision});
    var pruned := Pruned(s, route).(issued := s.issued + {revision});
    if forall id <- PendingOn(pruned.records, route) :: !InFlight(pruned.records[id].state) {
      RouteChangesLawful("", "");
      ResavedInv(lib, pruned, order, Quarantining());
      QuarantineEmpties(lib, pruned, route, order);
      var quiet := Resaved(lib, pruned, order, Quarantining());
      QuietRoute(lib, quiet, route, Route(route, revision, digest, workspace, session, "active",
                                          RouteOf(pruned, route).sequence));
    }
  }

  /** Any identity may be given to a route on which no task is pending. */
  lemma QuietRoute(lib: Library, s: Store, k: ChatIdentity, route: Route)
    requires Inv(lib, s)
    requires route.identity == k && route.revision in s.issued && route.sequence == RouteOf(s, k).sequence
    requires forall id <- PendingOn(s.records, k) :: s.records[id].kind != "task"
    ensures Inv(lib, s.(routes := s.routes[k := route]))
  {
    hide Inv;
    forall id | id in s.records && !s.records[id].Terminal() && s.records[id].Identity() == k
      ensures s.records[id].kind != "task"
    {
      assert id in PendingOn(s.records, k);
    }
    RouteInv(lib, s, k, route);
  }

  lemma {:induction false} PrunedFrame(s: Store, preserve: ChatIdentity)
    ensures var p := Pruned(s, preserve);
            && p.cursors == s.cursors && p.now == s.now && p.closed == s.closed && p.issued == s.issued
            && (forall id <- p.records :: id in s.records && p.records[id] == s.records[id])
            && (forall k <- p.routes :: k in s.routes && p.routes[k] == s.routes[k])
            && (preserve in s.routes ==> preserve in p.routes)
    decreases |s.history|
  {
    if s.history != [] {
      var entry := s.history[0];
      if !(entry.id in s.records && s.now < entry.expires) {
        var rest := s.(history := s.history[1..]);
        PrunedFrame(if entry.id in s.records then Forgotten(rest, entry.id, preserve) else rest, preserve);
      }
    }
  }

  lemma RouteRevisionIssued(lib: Library, s: Store, k: ChatIdentity)
    requires Inv(lib, s) && k in s.routes
    ensures s.routes[k].identity == k && s.routes[k].revision in s.issued
    ensures forall id <- PendingOn(s.records, k) :: s.records[id].kind == "task" ==>
              OnCurrentRoute(s.records[id], s.routes[k])
  {
    hide RecordsOK, HistoryOK, BusinessOK, SemanticOK, SequencesOK, Bounded;
  }

  lemma BeginInv(lib: Library, s: Store, route: ChatIdentity, revision: string)
    requires Inv(lib, s) && Fresh(s, revision)
    ensures Inv(lib, BeginRouteChange(s, route, revision).0)
  {
    hide Inv;
    IssuedInv(lib, s, {revision});
    if forall id <- PendingOn(s.records, route) :: !HoldsRoute(s.records[id]) {
      PendingStates(lib, s, route);
      QuietRoute(lib, s.(issued := s.issued + {revision}), route,
                 RouteOf(s, route).(identity := route, revision := revision, phase := "changing"));
    }
  }

  lemma PendingStates(lib: Library, s: Store, route: ChatIdentity)
    requires Inv(lib, s)
    ensures forall id <- PendingOn(s.records, route) :: s.records[id].state.Received? || InFlight(s.records[id].state)
  {
    hide HistoryOK, BusinessOK, SemanticOK, RoutesOK, SequencesOK, TasksOK, Bounded;
  }

  lemma FinishInv(lib: Library, s: Store, route: ChatIdentity, revision: string, digest: string, workspace: string,
                  session: string)
    requires Inv(lib, s)
    ensures Inv(lib, FinishRouteChange(s, route, revision, digest, workspace, session).0)
  {
    hide Inv;
    if route in s.routes && s.routes[route].phase == "changing" {
      RouteRevisionIssued(lib, s, route);
      QuietRoute(lib, s, route, s.routes[route].(authorizationDigest := digest, workspaceID := workspace,
                                                 sessionID := session, phase := "active"));
    }
  }

  lemma BindInv(lib: Library, s: Store, route: ChatIdentity, revision: string, session: string, order: seq<string>)
    requires Inv(lib, s)
    ensures Inv(lib, BindRouteSession(lib, s, route, revision, session, order).0)
  {
    hide Inv, Resaved;
    RouteChangesLawful(revision, session);
    ResavedInv(lib, s, order, Pinning(revision, session));
    var pinned := Resaved(lib, s, order, Pinning(revision, session));
    if route in s.routes {
      RouteRevisionIssued(lib, pinned, route);
      forall id | id in pinned.records && !pinned.records[id].Terminal() && pinned.records[id].kind == "task"
        && pinned.records[id].Identity() == route
        ensures OnCurrentRoute(pinned.records[id], s.routes[route])
      {
        assert id in PendingOn(pinned.records, route);
      }
      RouteInv(lib, pinned, route, s.routes[route].(sessionID := session));
    }
  }

  // Publishing a new record

  lemma BoundedInsert(records: map<string, Record>, r: Record)
    requires Bounded(records) && r.recordID !in records
    requires |records| < HISTORY_LIMIT
    requires Sum(records, Some(r.AccountKey())).pending + Sum(records, Some(r.AccountKey())).tombstones < HISTORY_LIMIT
    requires !r.Terminal() ==>
               && |PendingOn(records, r.Identity())| <= 64
               && Sum(records, Some(r.AccountKey())).pending <= 1024
               && Sum(records, None).pending <= 4096
    ensures Bounded(records[r.recordID := r])
  {
    hide Record.AccountKey, PendingOn, AccountBounded, Sum;
    var after := records[r.recordID := r];
    assert after.Keys == records.Keys + {r.recordID};
    SumInsert(records, r, None);
    forall account: string
      ensures AccountBounded(after, account)
    {
      assert AccountBounded(records, account);
      AccountInsert(records, r, account);
    }
    forall route
      ensures RouteBounded(after, route)
    {
      assert RouteBounded(records, route);
      PendingInsert(records, r, route);
    }
  }

  lemma AccountInsert(records: map<string, Record>, r: Record, account: string)
    requires AccountBounded(records, account) && r.recordID !in records
    requires account == r.AccountKey() ==>
               var t := Sum(records, Some(account));
               t.pending + t.tombstones < HISTORY_LIMIT && (!r.Terminal() ==> t.pending <= 1024)
    ensures AccountBounded(records[r.recordID := r], account)
  {
    hide Record.AccountKey, Sum;
    SumInsert(records, r, Some(account));
  }

  lemma PendingInsert(records: map<string, Record>, r: Record, route: ChatIdentity)
    requires r.recordID !in records
    ensures PendingOn(records[r.recordID := r], route) ==
            PendingOn(records, route) + (if route == r.Identity() && !r.Terminal() then {r.recordID} else {})
  {
  }

  /** What a record that is about to be stored satisfies. */
  ghost predicate Publishable(lib: Library, s: Store, r: Record, route: Route) {
    && r.recordID != "" && r.recordID in s.issued && r.recordID !in s.records
    && !r.state.Unset? && r.updatedAt == s.now
    && (Reserved(r.reason) ==> r.state.Rejected?)
    && r.BusinessKey() !in s.business
    && (ClaimsSemantic(r) ==> r.SemanticKey() !in s.semantic)
    && route.identity == r.Identity() && route.revision in s.issued
    && r.sequence == route.sequence == RouteOf(s, r.Identity()).sequence + 1
    && (r.Identity() in s.routes ==> route == s.routes[r.Identity()].(sequence := route.sequence))
    && (!r.Terminal() && r.kind == "task" ==> OnCurrentRoute(r, route))
    && !AtCapacity(s, r, lib.RecordSize(r))
  }

  lemma KeysInsert(records: map<string, Record>, business: map<string, string>, semantic: map<string, string>,
                   r: Record)
    requires BusinessOK(records, business) && SemanticOK(records, semantic) && r.recordID !in records
    requires r.BusinessKey() !in business
    requires ClaimsSemantic(r) ==> r.SemanticKey() !in semantic
    requires Reserved(r.reason) ==> r.state.Rejected?
    ensures BusinessOK(records[r.recordID := r], business[r.BusinessKey() := r.recordID])
    ensures SemanticOK(records[r.recordID := r], if ClaimsSemantic(r) then semantic[r.SemanticKey() := r.recordID]
                       else semantic)
  {
    hide Record.BusinessKey, Record.SemanticKey;
  }

  lemma RoutesInsert(records: map<string, Record>, routes: map<ChatIdentity, Route>, issued: set<string>, r: Record,
                     route: Route)
    requires RoutesOK(records, routes, issued) && SequencesOK(records, routes) && TasksOK(records, routes)
    requires r.recordID !in records && route.identity == r.Identity() && route.revision in issued
    requires r.sequence == route.sequence == (if r.Identity() in routes then routes[r.Identity()].sequence else 0) + 1
    requires r.Identity() in routes ==> route == routes[r.Identity()].(sequence := route.sequence)
    requires !r.Terminal() && r.kind == "task" ==> OnCurrentRoute(r, route)
    ensures var more := records[r.recordID := r];
            var routes' := routes[r.Identity() := route];
            RoutesOK(more, routes', issued) && SequencesOK(more, routes') && TasksOK(more, routes')
  {
  }

  lemma RecordsInsert(lib: Library, records: map<string, Record>, issued: set<string>, r: Record)
    requires RecordsOK(lib, records, issued) && r.recordID != "" && r.recordID in issued && !r.state.Unset?
    requires r.size == lib.RecordSize(r) && (r.Terminal() ==> r.text == "")
    ensures RecordsOK(lib, records[r.recordID := r], issued)
  {
  }

  lemma PublishedInv(lib: Library, s: Store, r: Record, route: Route, cursor: Option<Cursor>)
    requires Inv(lib, s) && Publishable(lib, s, r, route)
    ensures Inv(lib, Published(lib, s, r, route, cursor))
  {
    hide Unbound, PendingOn, RecordsOK, HistoryOK, BusinessOK, SemanticOK, RoutesOK, SequencesOK, TasksOK, Bounded,
         Record.BusinessKey,
         Record.SemanticKey, Record.AccountKey, Kept, Sum;
    var kept := Kept(lib, r);
    KeptSame(lib, r);
    SameKeys(r, kept);
    HistoryPush(s.records, s.history, s.now, kept);
    BoundedInsert(s.records, kept);
    RecordsInsert(lib, s.records, s.issued, kept);
    KeysInsert(s.records, s.business, s.semantic, kept);
    RoutesInsert(s.records, s.routes, s.issued, kept, route);
    hide PendingOn;
  }

  lemma PreparedMeaning(q: Request, now: int)
    requires Prepare(q.input, q.id, now).In?
    ensures var r := Prepare(q.input, q.id, now).r;
            && r.recordID == q.id && r.Identity() == q.input.Identity()
            && r.businessID == q.input.businessID && r.semanticID == q.input.semanticID && r.kind == q.input.kind
            && (r.state.Received? || r.state.Rejected?) && r.updatedAt == now
            && (r.reason == q.input.reason || r.reason == "source_time_out_of_range")
  {
    hide Record.AccountKey, Record.BusinessKey, Record.SemanticKey;
  }

  lemma DistinguishedMeaning(lib: Library, s: Store, p: Record)
    requires !Reserved(p.reason) && (p.state.Received? || p.state.Rejected?)
    ensures var r := Distinguished(lib, s, p);
            && r.(businessID := p.businessID, state := p.state, reason := p.reason, text := p.text) == p
            && (r.state.Received? || r.state.Rejected?)
            && (Reserved(r.reason) ==> r.state.Rejected? && r.reason == CONFLICT_REASON)
  {
    hide Record.BusinessKey;
  }

  lemma DeduplicatedMeaning(lib: Library, s: Store, r: Record)
    requires Inv(lib, s) && (r.state.Received? || r.state.Rejected?)
    requires Reserved(r.reason) ==> r.state.Rejected? && r.reason == CONFLICT_REASON
    ensures match Deduplicated(s, r)
            case Repeated(id) => id in s.records
            case New(d, _, _) =>
              && d.(state := r.state, reason := r.reason, text := r.text) == r
              && (d.state.Received? || d.state.Rejected?) && (Reserved(d.reason) ==> d.state.Rejected?)
              && d.BusinessKey() !in s.business && (ClaimsSemantic(d) ==> d.SemanticKey() !in s.semantic)
            case Turned(_) => false
  {
    hide HistoryOK, RoutesOK, SequencesOK, TasksOK, Bounded, Record.BusinessKey, Record.SemanticKey;
    var verdict := Deduplicated(s, r);
    if verdict.New? {
      SameKeys(r, verdict.record);
    }
  }

  lemma AdmittedMeaning(lib: Library, s: Store, r: Record, disposition: Disposition, revision: string)
    requires Inv(lib, s) && r.recordID != "" && r.recordID in s.issued && r.recordID !in s.records
    requires r.updatedAt == s.now && (r.state.Received? || r.state.Rejected?)
             && (Reserved(r.reason) ==> r.state.Rejected?)
    requires revision in s.issued
    requires r.BusinessKey() !in s.business && (ClaimsSemantic(r) ==> r.SemanticKey() !in s.semantic)
    ensures match Admitted(lib, s, r, disposition, revision)
            case New(d, route, given) => Publishable(lib, s, d, route) && d == r.(sequence := d.sequence)
              && given == disposition
            case Turned(result) => result.disposition == Retryable && result.recordID == ""
            case Repeated(_) => false
  {
    hide Inv, AtCapacity, Record.BusinessKey, Record.SemanticKey;
    if r.Identity() in s.routes {
      RouteRevisionIssued(lib, s, r.Identity());
    }
    SameKeys(r, r.(sequence := RouteFor(s, r, revision).sequence + 1));
  }

  /** What deduplication and the capacity checks leave of a prepared record. */
  lemma DecideMeaning(lib: Library, s: Store, prepared: Record, cursor: Option<Cursor>, revision: string)
    requires Inv(lib, s) && prepared.recordID != "" && prepared.recordID in s.issued && prepared.recordID !in s.records
    requires prepared.updatedAt == s.now && (prepared.state.Received? || prepared.state.Rejected?)
    requires !Reserved(prepared.reason) && revision in s.issued
    requires cursor.Some? ==> cursor.value.generation > 0
    ensures var v := Decide(lib, s, prepared, cursor, revision);
            && (v.New? ==>
                  Publishable(lib, s, v.record, v.route) && v.record.Identity() == prepared.Identity()
                  && v.record.recordID == prepared.recordID)
            && (v.Repeated? ==> v.id in s.records)
            && (v.Turned? ==> v.result.disposition == Retryable && v.result.recordID == "")
  {
    hide Inv, CheckCursor, Deduplicated, Distinguished, Admitted, Publishable;
    DistinguishedMeaning(lib, s, prepared);
    var r := Distinguished(lib, s, prepared);
    DeduplicatedMeaning(lib, s, r);
    var verdict := Deduplicated(s, r);
    if verdict.New? {
      AdmittedMeaning(lib, s, verdict.record, verdict.disposition, revision);
    }
  }

  lemma ClockInv(lib: Library, s: Store, elapsed: nat)
    requires Inv(lib, s)
    ensures Inv(lib, s.(now := s.now + elapsed))
  {
    hide RecordsOK, BusinessOK, SemanticOK, RoutesOK, SequencesOK, TasksOK, Bounded;
  }

  lemma CursorInv(lib: Library, s: Store, cursors: map<string, Cursor>)
    requires Inv(lib, s)
    ensures Inv(lib, s.(cursors := cursors))
  {
  }

  lemma AcceptInv(lib: Library, s: Store, q: Request)
    requires Inv(lib, s) && Allowed(s, OpAccept(q))
    ensures Inv(lib, Accept(lib, s, q).0)
  {
    hide Inv, Pruned, InvalidInput, Prepare, Decide, Published, Publishable;
    PrunedInv(lib, s, q.input.Identity());
    PrunedFrame(s, q.input.Identity());
    var pruned0 := Pruned(s, q.input.Identity());
    IssuedInv(lib, pruned0, {q.id, q.revision});
    var pruned := pruned0.(issued := s.issued + {q.id, q.revision});
    NamedByID(lib, s);
    if InvalidInput(q.input, q.cursor).None? && Prepare(q.input, q.id, s.now).In? {
      PreparedMeaning(q, s.now);
      var prepared := Prepare(q.input, q.id, s.now).r;
      DecideMeaning(lib, pruned, prepared, q.cursor, q.revision);
      var verdict := Decide(lib, pruned, prepared, q.cursor, q.revision);
      CursorInv(lib, pruned, WithCursor(pruned.cursors, q.input, q.cursor));
      if verdict.New? {
        PublishedInv(lib, pruned, verdict.record, verdict.route, q.cursor);
      }
    }
  }

  lemma StepInv(lib: Library, s: Store, op: Op)
    requires Inv(lib, s) && Allowed(s, op)
    ensures Inv(lib, Step(lib, s, op))
  {
    hide Inv, Accept, Update, EnsureRoute, BeginRouteChange, FinishRouteChange, BindRouteSession;
    match op
    case OpAccept(q) => AcceptInv(lib, s, q);
    case OpUpdate(id, allowed, change) => UpdateInv(lib, s, id, allowed, change);
    case OpEnsure(route, digest, workspace, session, revision, order) =>
      EnsureInv(lib, s, route, digest, workspace, session, revision, order);
    case OpBegin(route, revision) => BeginInv(lib, s, route, revision);
    case OpFinish(route, revision, digest, workspace, session) => FinishInv(lib, s, route, revision, digest,
                                                                            workspace, session);
    case OpBind(route, revision, session, order) => BindInv(lib, s, route, revision, session, order);
    case OpCursor(platform, account, _, next, _) => CursorInv(lib, s, s.cursors[Key2(platform, account) := next]);
    case OpTick(elapsed) => ClockInv(lib, s, elapsed);
    case OpClose => EmptyInv(lib, Close(s));
  }

  lemma EmptyInv(lib: Library, s: Store)
    requires s.records == map[] && s.routes == map[] && s.business == map[] && s.semantic == map[] && s.history == []
    ensures Inv(lib, s)
  {
    forall route
      ensures RouteBounded(s.records, route)
    {
      assert PendingOn(s.records, route) == {};
    }
  }
}
