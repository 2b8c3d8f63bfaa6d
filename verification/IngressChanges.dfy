/** What route changes and updates leave in the store
    (internal/gateway/im_ingress_store_routes.go, im_ingress_progress.go). */
module IngressChanges {
  import opened IngressTypes
  import opened IngressTally
  import opened IngressSpec
  import opened IngressInvariant
  import opened IngressRuns

  /** Messages of the chat are taken under this binding from now on. */
  predicate BoundTo(routes: map<ChatIdentity, Route>, route: ChatIdentity, digest: string, workspace: string,
                    session: string) {
    && route in routes
    && var r := routes[route];
       r.identity == route && r.phase == "active" && r.authorizationDigest == digest && r.workspaceID == workspace
       && r.sessionID == session
  }

  /** A chat that could be given a binding has exactly that binding, keeps its numbering,
      and is under a new revision unless the binding was already in force. */
  lemma EnsuredBinding(lib: Library, s: Store, route: ChatIdentity, digest: string, workspace: string, session: string,
                       revision: string, order: seq<string>)
    requires Inv(lib, s)
    requires Allowed(s, OpEnsure(route, digest, workspace, session, revision, order))
    ensures var (after, error) := EnsureRoute(lib, s, route, digest, workspace, session, revision, order);
            && (error == NoError <==>
                !s.closed && (BoundTo(s.routes, route, digest, workspace, session) || NoneInFlight(s.records, route)))
            && (error == NoError ==>
                  && BoundTo(after.routes, route, digest, workspace, session)
                  && after.routes[route].sequence == RouteOf(s, route).sequence
                  && after.routes[route].revision
                    == if BoundTo(s.routes, route, digest, workspace, session) then s.routes[route].revision
                      else revision)
            && (error != NoError ==> route in s.routes <==> route in after.routes)
            && (error != NoError && route in s.routes ==> after.routes[route] == s.routes[route])
  {
    hide Inv, Pruned, Resaved, PendingOn, InFlight, NoneInFlight;
    PrunedFrame(s, route);
    PrunedRoute(lib, s, route);
    FlightIsNotPruned(lib, s, route);
    FlightIsPending(Pruned(s, route).records, route);
    ResavedFrame(lib, Pruned(s, route).(issued := s.issued + {revision}), order, Quarantining());
  }

  ghost predicate NoneInFlight(records: map<string, Record>, route: ChatIdentity) {
    forall id <- records :: records[id].Identity() == route ==> !InFlight(records[id].state)
  }

  lemma FlightIsNotPruned(lib: Library, s: Store, route: ChatIdentity)
    requires Inv(lib, s)
    ensures NoneInFlight(Pruned(s, route).records, route) <==> NoneInFlight(s.records, route)
  {
    hide Inv, Pruned;
    forall id: string
      ensures id in Pruned(s, route).records <==> id in s.records && !IngressRuns.Expired(s.records[id], s.now)
      ensures id in Pruned(s, route).records ==> Pruned(s, route).records[id] == s.records[id]
    {
      PrunedExactly(lib, s, route, id);
    }
  }

  lemma FlightIsPending(records: map<string, Record>, route: ChatIdentity)
    ensures (exists id <- PendingOn(records, route) :: InFlight(records[id].state)) <==> !NoneInFlight(records, route)
  {
    if !NoneInFlight(records, route) {
      var id :| id in records && records[id].Identity() == route && InFlight(records[id].state);
      assert id in PendingOn(records, route);
    }
  }

  lemma PrunedRoute(lib: Library, s: Store, route: ChatIdentity)
    requires Inv(lib, s)
    ensures route in s.routes ==> s.routes[route].identity == route
    ensures route in Pruned(s, route).routes <==> route in s.routes
    ensures route in s.routes ==> Pruned(s, route).routes[route] == s.routes[route]
  {
    hide Pruned;
    PrunedFrame(s, route);
    if route in s.routes {
      RouteRevisionIssued(lib, s, route);
    }
  }

  /** The change that is under way ends with the binding that it was finished with. */
  lemma FinishedBinding(lib: Library, s: Store, route: ChatIdentity, revision: string, digest: string,
                        workspace: string, session: string)
    requires Inv(lib, s)
    ensures var (after, error) := FinishRouteChange(s, route, revision, digest, workspace, session);
            && (error == NoError <==>
                && !s.closed && route in s.routes && s.routes[route].phase == "changing"
                && s.routes[route].revision == revision)
            && (error == NoError ==>
                  && BoundTo(after.routes, route, digest, workspace, session)
                  && after.routes[route].revision == revision
                  && after.routes[route].sequence == s.routes[route].sequence)
            && after.records == s.records
  {
    hide Inv, PendingOn, OnCurrentRoute;
    if route in s.routes {
      RouteRevisionIssued(lib, s, route);
    }
  }

  /** The session goes to every message of this revision that waits without one, and
      to the chat; every other record stays as it is. */
  lemma SessionGiven(lib: Library, s: Store, route: ChatIdentity, revision: string, session: string,
                     order: seq<string>, id: string)
    requires Inv(lib, s) && Allowed(s, OpBind(route, revision, session, order)) && id in s.records
    requires BindRouteSession(lib, s, route, revision, session, order).1 == NoError
    ensures var after, r := BindRouteSession(lib, s, route, revision, session, order).0, s.records[id];
            && route in after.routes && after.routes[route].sessionID == session
            && id in after.records
            && var waits := r.Identity() == route && r.state.Received? && r.routeRevision == revision
               && r.sessionID == "";
               after.records[id] == if waits
                 then r.(sessionID := session, updatedAt := s.now, size := after.records[id].size) else r
  {
    hide Inv, Resaved;
    RouteChangesLawful(revision, session);
    ResavedAt(lib, s, order, Pinning(revision, session), id);
    var r := s.records[id];
    assert id in order <==> id in (set x | x in order);
    assert id in order <==> id in PendingOn(s.records, route);
    KeptMeaning(lib, r.(sessionID := session).(updatedAt := s.now));
  }

  /** An update keeps the whole record that it was given, but for the text of a record
      that it settles. */
  lemma UpdatedRecord(lib: Library, s: Store, id: string, allowed: set<State>, change: Change)
    requires Inv(lib, s) && Lawful(change)
    ensures Update(lib, s, id, allowed, change).1 == NoError <==>
              !s.closed && id in s.records && s.records[id].state in allowed && change(s.records[id]).Some?
    ensures Update(lib, s, id, allowed, change).1 != NoError ==> Update(lib, s, id, allowed, change).0 == s
    ensures Update(lib, s, id, allowed, change).1 == NoError ==>
            var after, r := Update(lib, s, id, allowed, change).0, change(s.records[id]).value;
            && id in after.records
            && after.records[id] == r.(text := if Final(r.state) then "" else r.text, updatedAt := s.now,
                                       size := after.records[id].size)
            && forall other <- s.records :: other != id ==>
                 other in after.records && after.records[other] == s.records[other]
  {
    hide Inv, Record.Terminal, Kept;
    NamedByID(lib, s);
    if id in s.records && change(s.records[id]).Some? {
      KeptMeaning(lib, change(s.records[id]).value.(updatedAt := s.now));
    }
  }

  lemma KeptMeaning(lib: Library, r: Record)
    ensures Kept(lib, r) == r.(text := if Final(r.state) then "" else r.text, size := Kept(lib, r).size)
    ensures Kept(lib, r).recordID == r.recordID
  {
  }

  /** Under a new binding the messages that were waiting are quarantined without their text;
      no record of another chat, and none that was settled, is touched. */
  lemma WaitingIsQuarantined(lib: Library, s: Store, route: ChatIdentity, digest: string, workspace: string,
                             session: string, revision: string, order: seq<string>, id: string)
    requires Inv(lib, s) && Allowed(s, OpEnsure(route, digest, workspace, session, revision, order))
    requires EnsureRoute(lib, s, route, digest, workspace, session, revision, order).1 == NoError
    requires !BoundTo(s.routes, route, digest, workspace, session)
    requires id in s.records && !IngressRuns.Expired(s.records[id], s.now)
    ensures var after, r := EnsureRoute(lib, s, route, digest, workspace, session, revision, order).0, s.records[id];
            && id in after.records
            && after.records[id] == if r.Identity() == route && r.state.Received?
                 then r.(state := Quarantined, reason := "route_identity_changed", text := "", updatedAt := s.now,
                         size := after.records[id].size) else r
  {
    hide Inv, Pruned, Resaved, InFlight, NoneInFlight, Kept, IngressRuns.Expired;
    var pruned := Pruned(s, route).(issued := s.issued + {revision});
    PrunedInv(lib, s, route);
    PrunedFrame(s, route);
    PrunedRoute(lib, s, route);
    PrunedExactly(lib, s, route, id);
    IssuedInv(lib, Pruned(s, route), {revision});
    QuarantinedOne(lib, pruned, route, order, id);
  }

  lemma QuarantinedOne(lib: Library, s: Store, route: ChatIdentity, order: seq<string>, id: string)
    requires Inv(lib, s) && Enumerates(order, PendingOn(s.records, route)) && id in s.records
    ensures var after, r := Resaved(lib, s, order, Quarantining()), s.records[id];
            && id in after.records
            && after.records[id] == if r.Identity() == route && r.state.Received?
                 then r.(state := Quarantined, reason := "route_identity_changed", text := "", updatedAt := s.now,
                         size := after.records[id].size) else r
  {
    hide Inv, Resaved;
    RouteChangesLawful("", "");
    ResavedAt(lib, s, order, Quarantining(), id);
    var r := s.records[id];
    assert id in order <==> id in (set x | x in order);
    assert id in order <==> id in PendingOn(s.records, route);
    KeptMeaning(lib, r.(state := Quarantined, reason := "route_identity_changed").(updatedAt := s.now));
  }

  /** A change begins exactly on a chat with no task that waits or is under way and no
      control under way; from then on no task is taken for it. */
  lemma BegunChange(lib: Library, s: Store, route: ChatIdentity, revision: string)
    requires Inv(lib, s)
    ensures var (after, error) := BeginRouteChange(s, route, revision);
            && (error == NoError <==>
                && !s.closed
                && forall id <- s.records :: s.records[id].Identity() == route && !s.records[id].Terminal() ==>
                     !InFlight(s.records[id].state) && !(s.records[id].kind == "task" && s.records[id].state.Received?))
            && (error == NoError ==>
                  && route in after.routes && after.routes[route].phase == "changing"
                  && after.routes[route].revision == revision
                  && after.routes[route].sequence == RouteOf(s, route).sequence)
            && after.records == s.records && (error != NoError ==> after == s)
  {
    hide Inv;
    if exists id <- PendingOn(s.records, route) :: HoldsRoute(s.records[id]) {
      var id :| id in PendingOn(s.records, route) && HoldsRoute(s.records[id]);
      assert id in s.records && s.records[id].Identity() == route && !s.records[id].Terminal();
    } else {
      forall id | id in s.records && s.records[id].Identity() == route && !s.records[id].Terminal()
        ensures !HoldsRoute(s.records[id])
      {
        assert id in PendingOn(s.records, route);
      }
    }
  }

  /** A checkpoint is stored exactly if it follows the account's current one. */
  lemma CommittedExactly(s: Store, platform: string, account: string, expected: nat, next: Cursor, valid: bool)
    ensures var (after, error) := CommitCursor(s, platform, account, expected, next, valid);
            var current := CursorOf(s.cursors, Key2(platform, account));
            && (error == NoError <==>
                && valid && !s.closed && ValidAccount(account) && ValidCursor(platform, next)
                && expected == current.generation && next.generation == current.generation + 1
                && (next.wechat.Some? ==> next.wechat.value.accountID == account)
                && (next.telegram.Some? ==> next.telegram.value.botID == "" || next.telegram.value.botID == account)
                && (current.wechat.Some? && next.wechat.Some? ==>
                      current.wechat.value.batchVersion < next.wechat.value.batchVersion))
            && after == if error == NoError then s.(cursors := s.cursors[Key2(platform, account) := next]) else s
  {
    hide ValidCursor, ValidAccount;
  }
}
