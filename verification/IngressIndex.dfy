/** The store's secondary indexes and counters as functions of its records
    (internal/gateway/im_ingress_store.go:33-57, 120-225). */
module IngressIndex {
  import opened IngressTypes
  import opened IngressTally
  import opened IngressSpec

  datatype Counts = Counts(pending: int, bytes: int, tombstones: int)

  const NO_COUNTS := Counts(0, 0, 0)

  type RouteIndex = map<ChatIdentity, set<string>>

  function CountsAt(counts: map<string, Counts>, key: string): Counts {
    if key in counts then counts[key] else NO_COUNTS
  }

  function Totals(t: Tally): Counts {
    Counts(t.pending, t.bytes, t.tombstones)
  }

  function IndexedAt(index: RouteIndex, route: ChatIdentity): set<string> {
    if route in index then index[route] else {}
  }

  /** delete(index[route], id), dropping an inner set that becomes empty. */
  function Without(index: RouteIndex, route: ChatIdentity, id: string): RouteIndex {
    var left := IndexedAt(index, route) - {id};
    if left == {} then index - {route} else index[route := left]
  }

  function With(index: RouteIndex, route: ChatIdentity, id: string): RouteIndex {
    index[route := IndexedAt(index, route) + {id}]
  }

  ghost predicate PendingIndex(records: map<string, Record>, pending: set<string>, byRoute: RouteIndex) {
    && pending == (set id | id in records && !records[id].Terminal())
    && (forall route :: IndexedAt(byRoute, route) == PendingOn(records, route))
    && (forall route <- byRoute :: byRoute[route] != {})
  }

  ghost predicate AllIndex(records: map<string, Record>, byRoute: RouteIndex) {
    && (forall route :: IndexedAt(byRoute, route) == OnRoute(records, route))
    && (forall route <- byRoute :: byRoute[route] != {})
  }

  ghost predicate AccountCounted(records: map<string, Record>, counts: map<string, Counts>, key: string) {
    CountsAt(counts, key) == Totals(Sum(records, Some(key))) && (key in counts ==> counts[key] != NO_COUNTS)
  }

  /** The counters are the sums over the records, and no account is listed with nothing. */
  ghost predicate Counted(records: map<string, Record>, counts: map<string, Counts>, total: Counts, memoryBytes: int) {
    && total == Totals(Sum(records, None))
    && memoryBytes == Sum(records, None).memory
    && (forall key :: AccountCounted(records, counts, key))
  }

  // One counter update

  function Added(c: Counts, t: Tally, delta: int): Counts {
    Counts(c.pending + delta * t.pending, c.bytes + delta * t.bytes, c.tombstones + delta * t.tombstones)
  }

  function Adjusted(counts: map<string, Counts>, r: Record, delta: int): map<string, Counts> {
    var key := r.AccountKey();
    var c := Added(CountsAt(counts, key), Of(r, None), delta);
    if c == NO_COUNTS then counts - {key} else counts[key := c]
  }

  lemma OfAccount(r: Record, key: string)
    ensures Of(r, Some(key)) == if key == r.AccountKey() then Of(r, None) else ZERO
  {
    hide Record.AccountKey;
  }

  lemma CountRemove(records: map<string, Record>, counts: map<string, Counts>, total: Counts, memoryBytes: int,
                    id: string)
    requires Counted(records, counts, total, memoryBytes) && id in records
    ensures Counted(records - {id}, Adjusted(counts, records[id], -1), Added(total, Of(records[id], None), -1),
                    memoryBytes - records[id].size)
  {
    hide Record.AccountKey, Sum;
    var r := records[id];
    SumRemove(records, id, None);
    var fewer := records - {id};
    var counts' := Adjusted(counts, r, -1);
    forall key: string
      ensures AccountCounted(fewer, counts', key)
    {
      assert AccountCounted(records, counts, key);
      SumRemove(records, id, Some(key));
      OfAccount(r, key);
    }
  }

  lemma CountInsert(records: map<string, Record>, counts: map<string, Counts>, total: Counts, memoryBytes: int,
                    r: Record)
    requires Counted(records, counts, total, memoryBytes) && r.recordID !in records
    ensures Counted(records[r.recordID := r], Adjusted(counts, r, 1), Added(total, Of(r, None), 1),
                    memoryBytes + r.size)
  {
    hide Record.AccountKey, Sum;
    SumInsert(records, r, None);
    var more := records[r.recordID := r];
    var counts' := Adjusted(counts, r, 1);
    forall key: string
      ensures AccountCounted(more, counts', key)
    {
      assert AccountCounted(records, counts, key);
      SumInsert(records, r, Some(key));
      OfAccount(r, key);
    }
  }

  // Index updates

  lemma PendingSettled(records: map<string, Record>, pending: set<string>, byRoute: RouteIndex, r: Record)
    requires PendingIndex(records, pending, byRoute) && r.Terminal()
    requires r.recordID in records ==> records[r.recordID].Identity() == r.Identity()
    ensures PendingIndex(records[r.recordID := r], pending - {r.recordID},
              if r.recordID in records && !records[r.recordID].Terminal() then
                Without(byRoute, r.Identity(), r.recordID) else byRoute)
  {
    var after := records[r.recordID := r];
    var byRoute' := if r.recordID in records && !records[r.recordID].Terminal() then
      Without(byRoute, r.Identity(), r.recordID) else byRoute;
    forall route
      ensures IndexedAt(byRoute', route) == PendingOn(after, route)
    {
      assert IndexedAt(byRoute, route) == PendingOn(records, route);
      assert PendingOn(after, route) == PendingOn(records, route) - {r.recordID};
    }
  }

  lemma PendingAdded(records: map<string, Record>, pending: set<string>, byRoute: RouteIndex, r: Record)
    requires PendingIndex(records, pending, byRoute) && !r.Terminal()
    requires r.recordID in records ==> records[r.recordID].Identity() == r.Identity()
    ensures PendingIndex(records[r.recordID := r], pending + {r.recordID}, With(byRoute, r.Identity(), r.recordID))
  {
    var after := records[r.recordID := r];
    var byRoute' := With(byRoute, r.Identity(), r.recordID);
    forall route
      ensures IndexedAt(byRoute', route) == PendingOn(after, route)
    {
      assert IndexedAt(byRoute, route) == PendingOn(records, route);
      assert PendingOn(after, route) == PendingOn(records, route) + (if route == r.Identity() then {r.recordID}
                                                                     else {});
    }
  }

  lemma PendingForgotten(records: map<string, Record>, pending: set<string>, byRoute: RouteIndex, id: string)
    requires PendingIndex(records, pending, byRoute) && id in records && records[id].Terminal()
    ensures PendingIndex(records - {id}, pending, byRoute)
  {
    forall route
      ensures IndexedAt(byRoute, route) == PendingOn(records - {id}, route)
    {
      assert PendingOn(records - {id}, route) == PendingOn(records, route);
    }
  }

  lemma AllAdded(records: map<string, Record>, byRoute: RouteIndex, r: Record)
    requires AllIndex(records, byRoute)
    requires r.recordID in records ==> records[r.recordID].Identity() == r.Identity()
    ensures AllIndex(records[r.recordID := r], With(byRoute, r.Identity(), r.recordID))
  {
    var after := records[r.recordID := r];
    forall route
      ensures IndexedAt(With(byRoute, r.Identity(), r.recordID), route) == OnRoute(after, route)
    {
      assert IndexedAt(byRoute, route) == OnRoute(records, route);
      assert OnRoute(after, route) == OnRoute(records, route) + (if route == r.Identity() then {r.recordID} else {});
    }
  }

  lemma AllForgotten(records: map<string, Record>, byRoute: RouteIndex, id: string)
    requires AllIndex(records, byRoute) && id in records
    ensures AllIndex(records - {id}, Without(byRoute, records[id].Identity(), id))
    ensures records[id].Identity() !in Without(byRoute, records[id].Identity(), id) <==>
              OnRoute(records - {id}, records[id].Identity()) == {}
  {
    forall route
      ensures IndexedAt(Without(byRoute, records[id].Identity(), id), route) == OnRoute(records - {id}, route)
    {
      assert IndexedAt(byRoute, route) == OnRoute(records, route);
      assert OnRoute(records - {id}, route) == OnRoute(records, route) - {id};
    }
  }

  // The derived fields after a save and after forgetting a record

  function PendingAfter(pending: set<string>, r: Record): set<string> {
    if r.Terminal() then pending - {r.recordID} else pending + {r.recordID}
  }

  function ByRouteAfter(records: map<string, Record>, byRoute: RouteIndex, r: Record): RouteIndex {
    if !r.Terminal() then With(byRoute, r.Identity(), r.recordID)
    else if r.recordID in records && !records[r.recordID].Terminal() then Without(byRoute, r.Identity(), r.recordID)
    else byRoute
  }

  function CountsWithout(records: map<string, Record>, counts: map<string, Counts>, id: string): map<string, Counts> {
    if id in records then Adjusted(counts, records[id], -1) else counts
  }

  function TotalWithout(records: map<string, Record>, total: Counts, id: string): Counts {
    if id in records then Added(total, Of(records[id], None), -1) else total
  }

  function BytesWithout(records: map<string, Record>, memoryBytes: int, id: string): int {
    if id in records then memoryBytes - records[id].size else memoryBytes
  }

  lemma PendingSaved(records: map<string, Record>, pending: set<string>, byRoute: RouteIndex, r: Record)
    requires PendingIndex(records, pending, byRoute)
    requires r.recordID in records ==> records[r.recordID].Identity() == r.Identity()
    ensures PendingIndex(records[r.recordID := r], PendingAfter(pending, r), ByRouteAfter(records, byRoute, r))
  {
    hide PendingIndex, With, Without;
    if r.Terminal() {
      PendingSettled(records, pending, byRoute, r);
    } else {
      PendingAdded(records, pending, byRoute, r);
    }
  }

  lemma CountSaved(records: map<string, Record>, counts: map<string, Counts>, total: Counts, memoryBytes: int,
                   r: Record)
    requires Counted(records, counts, total, memoryBytes)
    ensures Counted(records[r.recordID := r],
                    Adjusted(CountsWithout(records, counts, r.recordID), r, 1),
                    Added(TotalWithout(records, total, r.recordID), Of(r, None), 1),
                    BytesWithout(records, memoryBytes, r.recordID) + r.size)
  {
    hide Counted, Adjusted, Added;
    var id := r.recordID;
    var others := records - {id};
    if id in records {
      CountRemove(records, counts, total, memoryBytes, id);
    } else {
      assert others == records;
    }
    CountInsert(others, CountsWithout(records, counts, id), TotalWithout(records, total, id),
                BytesWithout(records, memoryBytes, id), r);
    assert others[id := r] == records[id := r];
  }

  lemma EmptyIndexes()
    ensures PendingIndex(map[], {}, map[]) && AllIndex(map[], map[]) && Counted(map[], map[], NO_COUNTS, 0)
  {
    forall route
      ensures IndexedAt(map[], route) == PendingOn(map[], route)
    {
    }
    forall key: string
      ensures AccountCounted(map[], map[], key)
    {
    }
  }

  // Listing order

  /** strings.Compare as a strict order. */
  predicate Less(a: string, b: string)
    decreases |a|
  {
    b != "" && (a == "" || a[0] < b[0] || (a[0] == b[0] && Less(a[1..], b[1..])))
  }

  lemma {:induction false} LessTotal(a: string, b: string)
    ensures Less(a, b) || a == b || Less(b, a)
    ensures !(Less(a, b) && Less(b, a)) && !Less(a, a)
    decreases |a|
  {
    if a != "" {
      LessTotal(a[1..], if b == "" then "" else b[1..]);
      LessTotal(a[1..], a[1..]);
      if b != "" && a[0] == b[0] && a[1..] == b[1..] {
        assert a == [a[0]] + a[1..] && b == [b[0]] + b[1..];
      }
    }
  }

  lemma {:induction false} LessTransitive(a: string, b: string, c: string)
    requires Less(a, b) && Less(b, c)
    ensures Less(a, c)
    decreases |a|
  {
    if a != "" && a[0] == b[0] == c[0] {
      LessTransitive(a[1..], b[1..], c[1..]);
    }
  }

  /** compareChatIdentity(a, b) < 0 */
  predicate IdentityLess(a: ChatIdentity, b: ChatIdentity) {
    if a.platform != b.platform then Less(a.platform, b.platform)
    else if a.accountID != b.accountID then Less(a.accountID, b.accountID)
    else Less(a.chatID, b.chatID)
  }

  predicate Before(a: Record, b: Record) {
    if a.Identity() != b.Identity() then IdentityLess(a.Identity(), b.Identity()) else a.sequence < b.sequence
  }

  lemma IdentityTotal(a: ChatIdentity, b: ChatIdentity)
    ensures IdentityLess(a, b) || a == b || IdentityLess(b, a)
    ensures !(IdentityLess(a, b) && IdentityLess(b, a)) && !IdentityLess(a, a)
  {
    hide Less;
    LessTotal(a.platform, b.platform);
    LessTotal(a.accountID, b.accountID);
    LessTotal(a.chatID, b.chatID);
    LessTotal(a.chatID, a.chatID);
  }

  lemma IdentityTransitive(a: ChatIdentity, b: ChatIdentity, c: ChatIdentity)
    requires IdentityLess(a, b) && IdentityLess(b, c)
    ensures IdentityLess(a, c)
  {
    hide Less;
    LessTotal(a.platform, b.platform);
    LessTotal(a.accountID, b.accountID);
    if a.platform != b.platform && b.platform != c.platform {
      LessTransitive(a.platform, b.platform, c.platform);
    } else if a.platform == b.platform == c.platform {
      if a.accountID != b.accountID && b.accountID != c.accountID {
        LessTransitive(a.accountID, b.accountID, c.accountID);
      } else if a.accountID == b.accountID == c.accountID {
        LessTransitive(a.chatID, b.chatID, c.chatID);
      }
    }
  }

  lemma BeforeTotal(a: Record, b: Record)
    ensures Before(a, b) || Before(b, a) || (a.Identity() == b.Identity() && a.sequence == b.sequence)
    ensures !(Before(a, b) && Before(b, a)) && !Before(a, a)
  {
    hide IdentityLess;
    IdentityTotal(a.Identity(), b.Identity());
  }

  lemma BeforeTransitive(a: Record, b: Record, c: Record)
    requires Before(a, b) && Before(b, c)
    ensures Before(a, c)
  {
    hide IdentityLess;
    IdentityTotal(a.Identity(), b.Identity());
    if a.Identity() != b.Identity() && b.Identity() != c.Identity() {
      IdentityTransitive(a.Identity(), b.Identity(), c.Identity());
    }
  }

  ghost predicate Sorted(out: seq<Record>) {
    forall i, j :: 0 <= i < j < |out| ==> Before(out[i], out[j])
  }

  lemma Member(out: seq<Record>)
    ensures out != [] ==> exists r :: r in out
  {
    if out != [] {
      assert out[0] in out;
    }
  }

  /** A listing is determined by its members: there is one sorted order. */
  lemma {:induction false} SortedUnique(a: seq<Record>, b: seq<Record>)
    requires Sorted(a) && Sorted(b) && forall r :: r in a <==> r in b
    ensures a == b
  {
    hide Before;
    Member(a);
    Member(b);
    if a != [] {
      assert a[0] in b && b[0] in a;
      var j :| 0 <= j < |b| && b[j] == a[0];
      var i :| 0 <= i < |a| && a[i] == b[0];
      BeforeTotal(a[0], b[0]);
      forall r
        ensures r in a[1..] <==> r in b[1..]
      {
        BeforeTotal(r, r);
        assert r in a <==> r == a[0] || r in a[1..];
        assert r in b <==> r == b[0] || r in b[1..];
        assert a[0] !in a[1..] by {
          BeforeTotal(a[0], a[0]);
        }
        assert b[0] !in b[1..] by {
          BeforeTotal(b[0], b[0]);
        }
      }
      SortedUnique(a[1..], b[1..]);
    }
  }
}
