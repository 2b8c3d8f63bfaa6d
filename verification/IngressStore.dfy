/** The ingress store as the gateway keeps it: records with indexes, counters
    and a compacted history, all updated in place
    (internal/gateway/im_ingress_store.go, im_ingress_store_routes.go,
    im_ingress_progress.go). Every method is one critical section and does to
    the abstract store what `IngressSpec` says. */
module IngressStore {
  import Utf8
  import opened IngressTypes
  import opened IngressTally
  import opened IngressSpec
  import opened IngressInvariant
  import opened IngressRuns
  import IngressAccepted
  import opened IngressIndex

  class IngressStore {
    const lib: Library
    var closing: bool
    var now: int
    var records: map<string, Record>
    var pending: set<string>
    var pendingByRoute: RouteIndex
    var routes: map<ChatIdentity, Route>
    var byRoute: RouteIndex
    var business: map<string, string>
    var semantic: map<string, string>
    var cursors: map<string, Cursor>
    var history: seq<HistoryEntry>
    var historyHead: nat
    var counts: map<string, Counts>
    var total: Counts
    var memoryBytes: int
    ghost var issued: set<string>

    /** The live history is what the head has not passed. */
    ghost function Abs(): Store
      requires historyHead <= |history|
      reads this
    {
      Store(records, routes, business, semantic, cursors, history[historyHead..], now, closing, issued)
    }

    /** The derived fields are the images of the records. */
    ghost predicate Derived()
      reads this
    {
      && historyHead <= |history|
      && PendingIndex(records, pending, pendingByRoute)
      && AllIndex(records, byRoute)
      && Counted(records, counts, total, memoryBytes)
    }

    ghost predicate Valid()
      reads this
    {
      Derived() && Inv(lib, Abs())
    }

    constructor (lib: Library, now: int)
      ensures Valid() && this.lib == lib
      ensures Abs() == EMPTY.(now := now)
    {
      this.lib := lib;
      this.now := now;
      closing := false;
      records, pending, pendingByRoute, routes, byRoute := map[], {}, map[], map[], map[];
      business, semantic, cursors := map[], map[], map[];
      history, historyHead := [], 0;
      counts, total, memoryBytes := map[], NO_COUNTS, 0;
      issued := {};
      new;
      EmptyIndexes();
      EmptyInv(lib, Abs());
    }

    method Tick(elapsed: nat)
      requires Valid()
      modifies this`now
      ensures Valid() && Abs() == old(Abs()).(now := old(now) + elapsed)
    {
      hide Inv, Counted, PendingIndex, AllIndex;
      ClockInv(lib, Abs(), elapsed);
      now := now + elapsed;
    }

    method ClearDerived()
      modifies this`pending, this`pendingByRoute, this`byRoute, this`counts, this`total, this`memoryBytes
      ensures pending == {} && pendingByRoute == map[] && byRoute == map[]
      ensures counts == map[] && total == NO_COUNTS && memoryBytes == 0
    {
      pending, pendingByRoute, byRoute := {}, map[], map[];
      counts, total, memoryBytes := map[], NO_COUNTS, 0;
    }

    method ClearContents()
      modifies this`records, this`routes, this`business, this`semantic, this`cursors, this`history, this`historyHead
      ensures records == map[] && routes == map[] && business == map[] && semantic == map[] && cursors == map[]
      ensures history == [] && historyHead == 0
    {
      records, routes, business, semantic, cursors := map[], map[], map[], map[], map[];
      history, historyHead := [], 0;
    }

    method Close()
      requires Valid()
      modifies this
      ensures Valid() && Abs() == IngressSpec.Close(old(Abs()))
    {
      hide Inv, Counted, PendingIndex, AllIndex;
      closing := true;
      ClearContents();
      ClearDerived();
      EmptyIndexes();
      EmptyInv(lib, IngressSpec.Close(old(Abs())));
      assert Abs() == IngressSpec.Close(old(Abs()));
    }

    method AdjustCounts(r: Record, delta: int)
      requires delta == 1 || delta == -1
      modifies this`counts, this`total, this`memoryBytes
      ensures counts == Adjusted(old(counts), r, delta)
      ensures total == Added(old(total), Of(r, None), delta)
      ensures memoryBytes == old(memoryBytes) + delta * r.size
    {
      memoryBytes := memoryBytes + delta * r.size;
      var key := Key2(r.platform, r.accountID);
      var c := if key in counts then counts[key] else NO_COUNTS;
      if r.Terminal() {
        c := c.(tombstones := c.tombstones + delta);
        total := total.(tombstones := total.tombstones + delta);
      } else {
        c := c.(pending := c.pending + delta, bytes := c.bytes + delta * r.size);
        total := total.(pending := total.pending + delta, bytes := total.bytes + delta * r.size);
      }
      if c == NO_COUNTS {
        counts := counts - {key};
      } else {
        counts := counts[key := c];
      }
    }

    /** The counters without the record that is about to be replaced. */
    method Uncount(id: string)
      modifies this`counts, this`total, this`memoryBytes
      ensures counts == CountsWithout(records, old(counts), id)
      ensures total == TotalWithout(records, old(total), id)
      ensures memoryBytes == BytesWithout(records, old(memoryBytes), id)
    {
      hide Adjusted, Added;
      if id in records {
        AdjustCounts(records[id], -1);
      }
    }

    /** A pending record enters its route's pending set; one that settles leaves it. */
    method IndexPending(r: Record)
      requires r.recordID in records ==> records[r.recordID].Identity() == r.Identity()
      modifies this`pending, this`pendingByRoute
      ensures pending == PendingAfter(old(pending), r)
      ensures pendingByRoute == ByRouteAfter(records, old(pendingByRoute), r)
    {
      var route := r.Identity();
      var mine := if route in pendingByRoute then pendingByRoute[route] else {};
      if r.Terminal() {
        if r.recordID in records && !records[r.recordID].Terminal() {
          mine := mine - {r.recordID};
          if mine == {} {
            pendingByRoute := pendingByRoute - {route};
          } else {
            pendingByRoute := pendingByRoute[route := mine];
          }
        }
        pending := pending - {r.recordID};
      } else {
        pending := pending + {r.recordID};
        pendingByRoute := pendingByRoute[route := mine + {r.recordID}];
      }
    }

    /** A record that becomes terminal is remembered for a day. */
    method Remember(r: Record)
      requires historyHead <= |history|
      modifies this`history
      ensures historyHead <= |history|
      ensures history[historyHead..] ==
              old(history[historyHead..]) + (if Ends(records, r) then [HistoryEntry(r.recordID, now + HISTORY_TTL)]
                                             else [])
    {
      if r.Terminal() {
        if r.recordID !in records || !records[r.recordID].Terminal() {
          history := history + [HistoryEntry(r.recordID, now + HISTORY_TTL)];
        }
      }
    }

    method Put(r: Record)
      modifies this`records, this`byRoute
      ensures records == old(records)[r.recordID := r]
      ensures byRoute == With(old(byRoute), r.Identity(), r.recordID)
    {
      records := records[r.recordID := r];
      var all := if r.Identity() in byRoute then byRoute[r.Identity()] else {};
      byRoute := byRoute[r.Identity() := all + {r.recordID}];
    }

    /** What is stored: a terminal record loses its body, and every record its measured size. */
    method Measured(input: Record, size: int) returns (r: Record)
      requires size == -1 || size == lib.RecordSize(input)
      ensures r == Kept(lib, input)
    {
      var measured := size;
      r := input;
      if r.Terminal() {
        if r.text != "" {
          measured := -1;
        }
        r := r.(text := "");
      }
      if measured < 0 {
        measured := lib.RecordSize(r);
      }
      assert measured == lib.RecordSize(r) by {
        assert r.text == input.text ==> r == input;
      }
      r := r.(size := measured);
    }

    /** The bookkeeping of save, field by field. */
    method Replace(r: Record)
      requires historyHead <= |history|
      requires r.recordID in records ==> records[r.recordID].Identity() == r.Identity()
      modifies this`records, this`pending, this`pendingByRoute, this`byRoute, this`history, this`counts, this`total,
        this`memoryBytes
      ensures records == old(records)[r.recordID := r]
      ensures pending == PendingAfter(old(pending), r)
      ensures pendingByRoute == ByRouteAfter(old(records), old(pendingByRoute), r)
      ensures byRoute == With(old(byRoute), r.Identity(), r.recordID)
      ensures counts == Adjusted(CountsWithout(old(records), old(counts), r.recordID), r, 1)
      ensures total == Added(TotalWithout(old(records), old(total), r.recordID), Of(r, None), 1)
      ensures memoryBytes == BytesWithout(old(records), old(memoryBytes), r.recordID) + r.size
      ensures historyHead <= |history|
      ensures history[historyHead..] ==
              old(history[historyHead..]) + (if Ends(old(records), r) then
                                             [HistoryEntry(r.recordID, now + HISTORY_TTL)] else [])
    {
      hide Record.AccountKey, Adjusted, Added, With, PendingAfter, ByRouteAfter, CountsWithout, TotalWithout,
           BytesWithout, Ends;
      Uncount(r.recordID);
      IndexPending(r);
      Remember(r);
      AdjustCounts(r, 1);
      Put(r);
    }

    /** save. `size` is the record's encoded size if the caller has measured it, or -1. */
    method Save(input: Record, size: int)
      requires Derived()
      requires input.recordID in records ==> records[input.recordID].Identity() == input.Identity()
      requires size == -1 || size == lib.RecordSize(input)
      modifies this`records, this`pending, this`pendingByRoute, this`byRoute, this`history, this`counts, this`total,
        this`memoryBytes
      ensures Derived() && Abs() == Saved(lib, old(Abs()), input)
    {
      hide Record.AccountKey, Record.BusinessKey, Record.SemanticKey, Counted, PendingIndex, AllIndex, Adjusted,
           Added, With,
           PendingAfter, ByRouteAfter, CountsWithout, TotalWithout, BytesWithout;
      var r := Measured(input, size);
      SavedFields(lib, Abs(), input);
      hide Kept, Saved, Ends;
      CountSaved(records, counts, total, memoryBytes, r);
      PendingSaved(records, pending, pendingByRoute, r);
      AllAdded(records, byRoute, r);
      Replace(r);
    }

    method ForgetKeys(r: Record, id: string)
      modifies this`business, this`semantic
      ensures business == Unbound(old(business), r.BusinessKey(), id)
      ensures semantic == Unbound(old(semantic), r.SemanticKey(), id)
    {
      var businessKey := Key3(r.platform, r.accountID, r.businessID);
      var semanticKey := Key3(r.platform, r.accountID, r.semanticID);
      KeysOf(r);
      hide Key3, Record.BusinessKey, Record.SemanticKey;
      if businessKey in business && business[businessKey] == id {
        business := business - {businessKey};
      }
      if semanticKey in semantic && semantic[semanticKey] == id {
        semantic := semantic - {semanticKey};
      }
    }

    method ForgetRoute(r: Record, id: string, preserve: ChatIdentity)
      modifies this`byRoute, this`routes
      ensures byRoute == Without(old(byRoute), r.Identity(), id)
      ensures routes == if r.Identity() !in byRoute && r.Identity() != preserve then old(routes) - {r.Identity()}
                else old(routes)
    {
      var route := (if r.Identity() in byRoute then byRoute[r.Identity()] else {}) - {id};
      if route == {} {
        byRoute := byRoute - {r.Identity()};
        if r.Identity() != preserve {
          routes := routes - {r.Identity()};
        }
      } else {
        byRoute := byRoute[r.Identity() := route];
      }
    }

    method Forget(id: string, preserve: ChatIdentity)
      requires Derived() && id in records && records[id].Terminal()
      modifies this`records, this`byRoute, this`routes, this`business, this`semantic, this`counts, this`total,
        this`memoryBytes
      ensures Derived() && Abs() == Forgotten(old(Abs()), id, preserve)
    {
      hide Record.AccountKey, Record.BusinessKey, Record.SemanticKey, Counted, PendingIndex, AllIndex, Without,
           OnRoute, Unbound;
      var r := records[id];
      PendingForgotten(records, pending, pendingByRoute, id);
      AllForgotten(records, byRoute, id);
      ForgetRecord(id);
      ForgetKeys(r, id);
      ForgetRoute(r, id, preserve);
    }

    method ForgetRecord(id: string)
      requires Counted(records, counts, total, memoryBytes) && id in records
      modifies this`records, this`counts, this`total, this`memoryBytes
      ensures records == old(records) - {id} && Counted(records, counts, total, memoryBytes)
    {
      hide Record.AccountKey, Counted, Adjusted, Added;
      CountRemove(records, counts, total, memoryBytes, id);
      AdjustCounts(records[id], -1);
      records := records - {id};
    }

    method PruneHistory(preserve: ChatIdentity)
      requires Valid()
      modifies this
      ensures Valid() && Abs() == Pruned(old(Abs()), preserve)
    {
      hide Inv, Counted, PendingIndex, AllIndex, Pruned, Forgotten;
      while historyHead < |history|
        invariant Valid()
        invariant Pruned(Abs(), preserve) == Pruned(old(Abs()), preserve)
        decreases |history| - historyHead
      {
        ghost var before := Abs();
        HeadExpiry(lib, before);
        var entry := history[historyHead];
        assert before.history[0] == entry;
        var id := entry.id;
        if id in records && now < entry.expires {
          break;
        }
        ForgetHead(lib, before, preserve);
        PrunedHead(before, preserve);
        historyHead := historyHead + 1;
        assert Abs() == before.(history := before.history[1..]);
        if id in records {
          Forget(id, preserve);
        }
      }
      PrunedStops(Abs(), preserve);
      if historyHead > 1024 && historyHead * 2 >= |history| {
        history := history[historyHead..];
        historyHead := 0;
      }
    }

    // Reading

    method Get(id: string) returns (r: Option<Record>)
      requires Valid()
      ensures r == if id in records then Some(records[id]) else None
      ensures r.Some? ==>
                && r.value.recordID == id && id in issued && !r.value.state.Unset?
                && (r.value.Terminal() ==> r.value.text == "")
                && r.value.BusinessKey() in business && business[r.value.BusinessKey()] == id
    {
      hide Record.BusinessKey, Record.SemanticKey, HistoryOK, RoutesOK, SequencesOK, TasksOK, Bounded, SemanticOK,
           Counted, PendingIndex, AllIndex;
      if id !in records {
        return None;
      }
      r := Some(records[id]);
    }

    /** lookupCommittedBusiness finds the record with this business key if there is one. */
    method LookupCommittedBusiness(platform: string, account: string,
                                   businessID: string) returns (found: Option<ReceiveResult>)
      requires Valid()
      ensures var key := Key3(platform, account, businessID);
              found.Some? <==> exists id :: id in records && records[id].BusinessKey() == key
      ensures found.Some? ==>
                && found.value.recordID in records
                && records[found.value.recordID].BusinessKey() == Key3(platform, account, businessID)
                && found.value == ReceiveResult(Duplicate, found.value.recordID, records[found.value.recordID].state,
                                                records[found.value.recordID].reason)
    {
      hide Record.BusinessKey, Record.SemanticKey, HistoryOK, RoutesOK, SequencesOK, TasksOK, Bounded, SemanticOK,
           RecordsOK, Counted, PendingIndex, AllIndex;
      var key := Key3(platform, account, businessID);
      if key !in business {
        return None;
      }
      var id := business[key];
      found := Some(ReceiveResult(Duplicate, id, records[id].state, records[id].reason));
    }

    /** list: through the index that suits the filter, sorted by route and sequence.
        The result is what filtering all records would give, each record once. */
    method List(route: Option<ChatIdentity>, pendingOnly: bool, metadata: bool) returns (out: seq<Record>)
      requires Valid()
      ensures Sorted(out)
      ensures forall r :: r in out <==> exists id ::
                id in records && Listed(records[id], route, pendingOnly) && r == Shown(records[id], metadata)
    {
      hide Inv, Counted, Before;
      var keys: set<string>;
      if pendingOnly {
        keys := pending;
        if route.Some? {
          keys := if route.value in pendingByRoute then pendingByRoute[route.value] else {};
          assert keys == IndexedAt(pendingByRoute, route.value);
        }
      } else if route.Some? {
        keys := if route.value in byRoute then byRoute[route.value] else {};
        assert keys == IndexedAt(byRoute, route.value);
      } else {
        keys := records.Keys;
      }
      assert keys == (set id | id in records && Listed(records[id], route, pendingOnly));
      hide PendingIndex, AllIndex;
      out := [];
      while keys != {}
        invariant keys <= records.Keys && forall id <- keys :: Listed(records[id], route, pendingOnly)
        invariant Sorted(out)
        invariant forall r :: r in out <==> exists id ::
                    id in records && id !in keys
                    && Listed(records[id], route, pendingOnly) && r == Shown(records[id], metadata)
        decreases keys
      {
        var id :| id in keys;
        ghost var previous := out;
        ghost var left := keys - {id};
        var shown := Shown(records[id], metadata);
        forall r | r in out
          ensures !(r.Identity() == shown.Identity() && r.sequence == shown.sequence)
        {
          var other :| other in records && other !in keys && Listed(records[other], route, pendingOnly)
            && r == Shown(records[other], metadata);
          DistinctSequences(lib, Abs(), id, other);
        }
        out := InsertSorted(out, shown);
        keys := keys - {id};
        forall r
          ensures r in out <==> exists x ::
                    x in records && x !in left && Listed(records[x], route, pendingOnly)
                    && r == Shown(records[x], metadata)
        {
          if r == shown {
            assert id in records && id !in left && Listed(records[id], route, pendingOnly);
          }
          if r in previous {
            var x :| x in records && x !in left + {id} && Listed(records[x], route, pendingOnly)
              && r == Shown(records[x], metadata);
            assert x !in left;
          }
        }
      }
    }

    // Accepting

    static method FitIdentifiers(identifiers: seq<string>) returns (fit: bool)
      ensures fit <==> forall v <- identifiers :: |v| <= MAX_SCOPED_ID_BYTES && Utf8.Valid(v)
    {
      hide Utf8.Valid;
      for i := 0 to |identifiers|
        invariant forall j :: 0 <= j < i ==> |identifiers[j]| <= MAX_SCOPED_ID_BYTES && Utf8.Valid(identifiers[j])
      {
        if |identifiers[i]| > MAX_SCOPED_ID_BYTES || !Utf8.Valid(identifiers[i]) {
          return false;
        }
      }
      return true;
    }

    method CheckInput(r: Record, cursor: Option<Cursor>) returns (reason: Option<string>)
      ensures reason == InvalidInput(r, cursor)
    {
      hide Utf8.Valid, ValidCursor;
      if r.platform == "" || r.accountID == "" || r.chatID == "" || (r.senderID == "" && !r.state.Rejected?)
         || r.businessID == "" || !Utf8.Valid(r.text) || |r.text| > MAX_TEXT_BYTES {
        return Some("invalid_input");
      }
      var fit := FitIdentifiers([r.platform, r.accountID, r.chatID, r.senderID, r.businessID, r.semanticID,
                                 r.deliveryID]);
      if !fit {
        return Some("invalid_identity");
      }
      if r.inputDigest != "" && !IsDigest(r.inputDigest) {
        return Some("invalid_input_digest");
      }
      if r.kind != "task" && r.kind != "control" {
        return Some("invalid_kind");
      }
      if cursor.Some? && !ValidCursor(r.platform, cursor.value) {
        return Some("invalid_cursor");
      }
      return None;
    }

    method PrepareRecord(input: Record, id: string) returns (p: Prepared)
      ensures p == Prepare(input, id, now)
    {
      var r := input.(recordID := id, requestID := "im-" + id);
      if r.receivedAt == ZERO_TIME || (now < r.receivedAt <= now + 5 * MINUTE) {
        r := r.(receivedAt := now);
      } else if now + 5 * MINUTE < r.receivedAt {
        return Out(Refusing("received_time_out_of_range"));
      }
      r := r.(updatedAt := now);
      if r.state.Unset? {
        r := r.(state := Received);
      }
      if !r.state.Received? && !r.state.Rejected? {
        return Out(Refusing("invalid_state"));
      }
      if r.sourceTime != ZERO_TIME && (r.sourceTime < now - 24 * HOUR || now + 5 * MINUTE < r.sourceTime) {
        r := r.(state := Rejected, reason := "source_time_out_of_range");
      }
      if r.kind == "control" {
        r := r.(text := "", inputDigest := "");
      }
      if r.state.Rejected? {
        r := r.(text := "");
      }
      return In(r);
    }

    /** The lookups in the business and then the semantic index. */
    method Deduplicate(prepared: Record) returns (v: Verdict)
      requires Valid()
      ensures v == Deduplicated(Abs(), Distinguished(lib, Abs(), prepared))
    {
      hide Inv, Counted, PendingIndex, AllIndex, Record.AccountKey;
      var r := prepared;
      var businessKey := Key3(r.platform, r.accountID, r.businessID);
      KeysOf(r);
      if r.platform == "telegram" && businessKey in business && business[businessKey] in records {
        var prior := records[business[businessKey]];
        if prior.chatID != r.chatID || prior.semanticID != r.semanticID || prior.inputDigest != r.inputDigest {
          r := r.(businessID := "update-conflict:" + lib.conflictDigest(r.businessID, r.chatID, r.semanticID,
                                                                        r.inputDigest),
                  state := Rejected, reason := CONFLICT_REASON, text := "");
        }
      }
      assert r == Distinguished(lib, Abs(), prepared);
      hide Distinguished;
      KeysOf(r);
      businessKey := Key3(r.platform, r.accountID, r.businessID);
      if businessKey in business {
        return Repeated(business[businessKey]);
      }
      var semanticKey := Key3(r.platform, r.accountID, r.semanticID);
      if r.semanticID != "" && r.reason != CONFLICT_REASON && semanticKey in semantic {
        if r.platform == "telegram" {
          return New(r.(state := Rejected, reason := DUPLICATE_REASON, text := ""), NO_ROUTE, Duplicate);
        }
        return Repeated(semantic[semanticKey]);
      }
      return New(r, NO_ROUTE, Accepted);
    }

    /** The limits, read from the indexes and counters in constant time. */
    method Full(r: Record, size: int) returns (full: bool)
      requires Derived()
      ensures full <==> AtCapacity(Abs(), r, size)
    {
      hide AllIndex, Record.BusinessKey, Record.SemanticKey, Sum;
      var reserve := if r.statusQuery && r.kind == "control" && r.state.Received? then 1 else 0;
      var mine := if r.Identity() in pendingByRoute then |pendingByRoute[r.Identity()]| else 0;
      assert IndexedAt(pendingByRoute, r.Identity()) == PendingOn(records, r.Identity());
      var key := Key2(r.platform, r.accountID);
      var account := if key in counts then counts[key] else NO_COUNTS;
      assert AccountCounted(records, counts, key);
      hide Counted, PendingIndex, PendingOn;
      full := |records| >= HISTORY_LIMIT || memoryBytes + size > MEMORY_LIMIT
        || account.pending + account.tombstones >= HISTORY_LIMIT
              || (!r.Terminal() &&
                  (mine >= 64 + reserve || account.pending >= 1024 + reserve
                   || account.bytes + size > ACCOUNT_BYTES_LIMIT
                   || total.pending >= 4096 + reserve || total.bytes + size > MEMORY_LIMIT));
    }

    method Admit(r: Record, disposition: Disposition, revision: string) returns (v: Verdict, size: int)
      requires Derived()
      ensures v == Admitted(lib, Abs(), r, disposition, revision)
      ensures v.New? ==> size == lib.RecordSize(v.record)
    {
      hide Counted, PendingIndex, AllIndex, AtCapacity;
      size := 0;
      var route := if r.Identity() in routes then routes[r.Identity()]
        else NO_ROUTE.(identity := r.Identity(), revision := revision, phase := "unbound");
      if !r.state.Rejected? && r.kind == "task"
         && (route.phase != "active" || route.revision != r.routeRevision
             || route.authorizationDigest != r.authorizationDigest) {
        return Turned(Retrying("route_changed")), 0;
      }
      route := route.(sequence := route.sequence + 1);
      var numbered := r.(sequence := route.sequence);
      size := lib.RecordSize(numbered);
      var full := Full(numbered, size);
      if full {
        return Turned(Retrying("capacity")), size;
      }
      return New(numbered, route, disposition), size;
    }

    method BindKeys(r: Record)
      modifies this`business, this`semantic
      ensures business == old(business)[r.BusinessKey() := r.recordID]
      ensures semantic == if ClaimsSemantic(r) then old(semantic)[r.SemanticKey() := r.recordID] else old(semantic)
    {
      KeysOf(r);
      business := business[Key3(r.platform, r.accountID, r.businessID) := r.recordID];
      if r.semanticID != "" && r.reason != CONFLICT_REASON && r.reason != DUPLICATE_REASON {
        semantic := semantic[Key3(r.platform, r.accountID, r.semanticID) := r.recordID];
      }
    }

    method Checkpoint(r: Record, cursor: Option<Cursor>)
      modifies this`cursors
      ensures cursors == WithCursor(old(cursors), r, cursor)
    {
      if cursor.Some? {
        cursors := cursors[Key2(r.platform, r.accountID) := cursor.value];
      }
    }

    method Publish(r: Record, size: int, route: Route, cursor: Option<Cursor>)
      requires Valid() && Publishable(lib, Abs(), r, route) && size == lib.RecordSize(r)
      modifies this
      ensures Valid() && Abs() == Published(lib, old(Abs()), r, route, cursor)
    {
      hide Inv, Counted, PendingIndex, AllIndex, Kept, Saved, Published, AtCapacity, Record.AccountKey,
           Record.BusinessKey, Record.SemanticKey, WithCursor;
      assert r.recordID !in records;
      PublishedInv(lib, Abs(), r, route, cursor);
      hide Publishable;
      PublishedSteps(lib, Abs(), r, route, cursor);
      SaveOnRoute(r, size, route);
      BindKeys(r);
      Checkpoint(r, cursor);
    }

    method SaveOnRoute(r: Record, size: int, route: Route)
      requires Derived() && r.recordID !in records && size == lib.RecordSize(r)
      modifies this`records, this`pending, this`pendingByRoute, this`byRoute, this`history, this`counts, this`total,
        this`memoryBytes, this`routes
      ensures Derived() && Abs() == Saved(lib, old(Abs()).(routes := old(routes)[r.Identity() := route]), r)
    {
      hide Counted, PendingIndex, AllIndex, Kept, Saved;
      routes := routes[r.Identity() := route];
      Save(r, size);
    }

    /** The decision about a prepared record, and what follows from it. */
    method Resolve(q: Request, prepared: Record) returns (result: ReceiveResult)
      requires Valid() && prepared.recordID != "" && prepared.recordID in issued && prepared.recordID !in records
      requires prepared.updatedAt == now && (prepared.state.Received? || prepared.state.Rejected?)
      requires !Reserved(prepared.reason) && q.revision in issued
      requires q.cursor.Some? ==> q.cursor.value.generation > 0
      modifies this
      ensures Valid() && (Abs(), result) == Conclude(lib, old(Abs()), q, prepared)
    {
      hide Inv, Counted, PendingIndex, AllIndex, Deduplicated, Distinguished, Admitted, CheckCursor,
           Publishable, Published, WithCursor;
      if q.cursor.Some? {
        if CheckCursor(cursors, prepared.platform, prepared.accountID, q.cursor.value.generation - 1,
                       q.cursor.value) != NoError {
          return Retrying("cursor_generation_conflict");
        }
      }
      DecideMeaning(lib, Abs(), prepared, q.cursor, q.revision);
      var v := Deduplicate(prepared);
      if v.Repeated? {
        var prior := records[v.id];
        CursorInv(lib, Abs(), WithCursor(cursors, q.input, q.cursor));
        Checkpoint(q.input, q.cursor);
        return ReceiveResult(Duplicate, prior.recordID, prior.state, prior.reason);
      }
      DeduplicatedNew(lib, Abs(), prepared);
      var admitted, size := Admit(v.record, v.disposition, q.revision);
      if admitted.Turned? {
        return admitted.result;
      }
      var r := admitted.record;
      Publish(r, size, admitted.route, q.cursor);
      return ReceiveResult(if r.state.Rejected? && admitted.disposition != Duplicate then Refused
                           else admitted.disposition,
                           r.recordID, r.state, r.reason);
    }

    /** A message is taken for processing exactly if it is welcome. */
    method AcceptRecord(q: Request) returns (result: ReceiveResult)
      requires Valid() && Fresh(Abs(), q.id) && Fresh(Abs(), q.revision) && q.id != q.revision
               && !Reserved(q.input.reason)
      modifies this
      ensures Valid() && (Abs(), result) == Accept(lib, old(Abs()), q)
      ensures result.disposition == Accepted <==> IngressAccepted.Welcome(lib, old(Abs()), q)
      ensures result.disposition == Accepted ==>
                result == ReceiveResult(Accepted, q.id, Received, q.input.reason)
                && IngressAccepted.Holds(lib, old(Abs()), q, Abs())
    {
      result := Receive(q);
      IngressAccepted.AcceptedExactly(lib, old(Abs()), q);
      hide *;
    }

    /** acceptRecord. The record is published together with the cursor it came with. */
    method Receive(q: Request) returns (result: ReceiveResult)
      requires Valid() && Fresh(Abs(), q.id) && Fresh(Abs(), q.revision) && q.id != q.revision
               && !Reserved(q.input.reason)
      modifies this
      ensures Valid() && (Abs(), result) == Accept(lib, old(Abs()), q)
    {
      hide Inv, Counted, PendingIndex, AllIndex, Pruned, InvalidInput, Prepare, Conclude;
      ghost var start := Abs();
      var invalid := CheckInput(q.input, q.cursor);
      if invalid.Some? {
        return Refusing(invalid.value);
      }
      if !q.valid {
        return Retrying("transport_identity_changed");
      }
      if !q.available || closing {
        return Retrying("ingress_unavailable");
      }
      PrunedFrame(start, q.input.Identity());
      NamedByID(lib, start);
      PruneHistory(q.input.Identity());
      IssuedInv(lib, Abs(), {q.id, q.revision});
      issued := issued + {q.id, q.revision};
      var p := PrepareRecord(q.input, q.id);
      if p.Out? {
        return p.result;
      }
      PreparedMeaning(q, start.now);
      result := Resolve(q, p.r);
    }

    // Changing

    method UpdateRecord(id: string, allowed: set<State>, change: Change) returns (error: Error)
      requires Valid() && Lawful(change) && forall state <- allowed :: !Final(state)
      modifies this
      ensures Valid() && (Abs(), error) == Update(lib, old(Abs()), id, allowed, change)
    {
      hide Inv, Counted, PendingIndex, AllIndex, Kept;
      UpdateInv(lib, Abs(), id, allowed, change);
      NamedByID(lib, Abs());
      if closing {
        return Closed;
      }
      if id !in records {
        return Missing;
      }
      if records[id].state !in allowed {
        return Blocked;
      }
      var changed := change(records[id]);
      if changed.None? {
        return Failed;
      }
      var r := changed.value.(updatedAt := now);
      Save(r, -1);
      return NoError;
    }

    /** The pending records of a route, in the order the map iteration happens to take. */
    method RoutePending(route: ChatIdentity) returns (out: seq<Record>, ghost order: seq<string>)
      requires Valid()
      ensures Enumerates(order, PendingOn(records, route)) && |order| == |out|
      ensures forall i :: 0 <= i < |out| ==>
                order[i] in records && out[i] == records[order[i]] && out[i].recordID == order[i]
    {
      hide Inv, Counted, AllIndex;
      NamedByID(lib, Abs());
      var keys := if route in pendingByRoute then pendingByRoute[route] else {};
      assert keys == IndexedAt(pendingByRoute, route) == PendingOn(records, route);
      hide PendingIndex;
      out, order := [], [];
      while keys != {}
        invariant keys <= PendingOn(records, route) && |order| == |out|
        invariant forall i, j :: 0 <= i < j < |order| ==> order[i] != order[j]
        invariant (set id | id in order) == PendingOn(records, route) - keys
        invariant forall i :: 0 <= i < |out| ==>
                    order[i] in records && out[i] == records[order[i]] && out[i].recordID == order[i]
        decreases keys
      {
        var id :| id in keys;
        assert id !in order by {
          assert id !in (set x | x in order);
        }
        out := out + [records[id]];
        ghost var longer := order + [id];
        assert (set x | x in longer) == (set x | x in order) + {id};
        order := longer;
        keys := keys - {id};
      }
    }

    /** Saving again the records `out` that `change` selects, one by one. */
    method Resave(out: seq<Record>, ghost order: seq<string>, change: Change)
      requires Valid() && PendingOnly(change) && |order| == |out|
      requires forall i, j :: 0 <= i < j < |order| ==> order[i] != order[j]
      requires forall i :: 0 <= i < |out| ==>
                 order[i] in records && out[i] == records[order[i]] && out[i].recordID == order[i]
      modifies this
      ensures Valid() && Abs() == Resaved(lib, old(Abs()), order, change)
    {
      hide Inv, Counted, PendingIndex, AllIndex, Kept;
      for i := 0 to |out|
        invariant Valid() && now == old(now)
        invariant forall j :: i <= j < |out| ==> order[j] in records && out[j] == records[order[j]]
        invariant Resaved(lib, Abs(), order[i..], change) == Resaved(lib, old(Abs()), order, change)
      {
        assert order[i..][0] == order[i] && order[i..][1..] == order[i + 1..];
        var changed := change(out[i]);
        if changed.Some? {
          NamedByID(lib, Abs());
          var r := changed.value.(updatedAt := now);
          SavedInv(lib, Abs(), r);
          KeptSame(lib, r);
          Save(r, -1);
        }
      }
      assert order[|out|..] == [];
    }

    method EnsureRoute(route: ChatIdentity, digest: string, workspace: string, session: string, revision: string)
      returns (current: Route, error: Error, ghost order: seq<string>)
      requires Valid() && Fresh(Abs(), revision)
      modifies this
      ensures Valid() && Enumerates(order, PendingOn(Pruned(old(Abs()), route).records, route))
      ensures (Abs(), error) == IngressSpec.EnsureRoute(lib, old(Abs()), route, digest, workspace, session, revision,
                                                        order)
      ensures error == NoError ==> route in routes && current == routes[route]
    {
      hide Inv, Counted, PendingIndex, AllIndex, Kept, Pruned, Resaved, PendingOn, Quarantining, PendingOnly;
      ghost var start := Abs();
      if closing {
        order := SomeOrder(PendingOn(Pruned(start, route).records, route));
        return NO_ROUTE, Closed, order;
      }
      PrunedFrame(start, route);
      PruneHistory(route);
      IssuedInv(lib, Abs(), {revision});
      issued := issued + {revision};
      ghost var pruned := Abs();
      var entry := if route in routes then routes[route] else NO_ROUTE;
      var out: seq<Record>;
      out, order := RoutePending(route);
      EnsureInv(lib, start, route, digest, workspace, session, revision, order);
      if entry.phase == "active" && entry.authorizationDigest == digest && entry.workspaceID == workspace
        && entry.sessionID == session {
        return entry, NoError, order;
      }
      var busy := AnyInFlight(out, records, order, route);
      if busy {
        return NO_ROUTE, Blocked, order;
      }
      RouteChangesLawful("", "");
      ResavedFrame(lib, pruned, order, Quarantining());
      Resave(out, order, Quarantining());
      entry := entry.(identity := route, revision := revision, authorizationDigest := digest,
                      workspaceID := workspace, sessionID := session, phase := "active");
      routes := routes[route := entry];
      return entry, NoError, order;
    }

    method BeginRouteChange(route: ChatIdentity, revision: string) returns (current: Route, error: Error)
      requires Valid() && Fresh(Abs(), revision)
      modifies this
      ensures Valid() && (Abs(), error) == IngressSpec.BeginRouteChange(old(Abs()), route, revision)
      ensures error == NoError ==> route in routes && current == routes[route]
    {
      hide Inv, Counted, PendingIndex, AllIndex;
      BeginInv(lib, Abs(), route, revision);
      if closing {
        return NO_ROUTE, Closed;
      }
      var out, order := RoutePending(route);
      var held := AnyHolding(out, records, order, route);
      if held {
        return NO_ROUTE, Blocked;
      }
      var entry := if route in routes then routes[route] else NO_ROUTE;
      entry := entry.(identity := route, revision := revision, phase := "changing");
      issued := issued + {revision};
      routes := routes[route := entry];
      return entry, NoError;
    }

    method FinishRouteChange(route: ChatIdentity, revision: string, digest: string, workspace: string,
                             session: string) returns (error: Error)
      requires Valid()
      modifies this
      ensures Valid() && (Abs(), error) == IngressSpec.FinishRouteChange(old(Abs()), route, revision, digest,
                                                                         workspace, session)
    {
      hide Inv, Counted, PendingIndex, AllIndex;
      FinishInv(lib, Abs(), route, revision, digest, workspace, session);
      if closing {
        return Closed;
      }
      if route !in routes {
        return Missing;
      }
      var entry := routes[route];
      if entry.revision != revision || entry.phase != "changing" {
        return Blocked;
      }
      routes := routes[route := entry.(authorizationDigest := digest, workspaceID := workspace, sessionID := session,
                                       phase := "active")];
      return NoError;
    }

    method BindRouteSession(route: ChatIdentity, revision: string, session: string) returns (error: Error,
        ghost order: seq<string>)
      requires Valid()
      modifies this
      ensures Valid() && Enumerates(order, PendingOn(old(records), route))
      ensures (Abs(), error) == IngressSpec.BindRouteSession(lib, old(Abs()), route, revision, session, order)
    {
      hide Inv, Counted, PendingIndex, AllIndex, Kept, Resaved;
      ghost var start := Abs();
      var out: seq<Record>;
      out, order := RoutePending(route);
      if closing {
        return Closed, order;
      }
      if route !in routes {
        return Missing, order;
      }
      var entry := routes[route];
      if session == "" || entry.phase != "active" || entry.revision != revision
        || (entry.sessionID != "" && entry.sessionID != session) {
        return Blocked, order;
      }
      BindInv(lib, start, route, revision, session, order);
      RouteChangesLawful(revision, session);
      ResavedFrame(lib, start, order, Pinning(revision, session));
      Resave(out, order, Pinning(revision, session));
      routes := routes[route := entry.(sessionID := session)];
      return NoError, order;
    }

    method CommitCursor(platform: string, account: string, expected: nat, next: Cursor,
                        valid: bool) returns (error: Error)
      requires Valid()
      modifies this
      ensures Valid() && (Abs(), error) == IngressSpec.CommitCursor(old(Abs()), platform, account, expected, next,
                                                                    valid)
    {
      hide Inv, Counted, PendingIndex, AllIndex, CheckCursor;
      CursorInv(lib, Abs(), cursors[Key2(platform, account) := next]);
      if !valid {
        return TransportChanged;
      }
      if closing {
        return Closed;
      }
      var e := CheckCursor(cursors, platform, account, expected, next);
      if e != NoError {
        return e;
      }
      cursors := cursors[Key2(platform, account) := next];
      return NoError;
    }
  }

  // Helpers

  predicate Ends(records: map<string, Record>, r: Record) {
    r.Terminal() && (r.recordID !in records || !records[r.recordID].Terminal())
  }

  lemma SavedFields(lib: Library, s: Store, input: Record)
    ensures var r := Kept(lib, input);
            && r.Identity() == input.Identity() && r.recordID == input.recordID
            && Saved(lib, s, input) ==
                 s.(records := s.records[r.recordID := r],
                    history := s.history + (if Ends(s.records, r) then
                                            [HistoryEntry(r.recordID, s.now + HISTORY_TTL)] else []))
  {
    KeptSame(lib, input);
    assert s.history + [] == s.history;
  }

  lemma PublishedSteps(lib: Library, s: Store, r: Record, route: Route, cursor: Option<Cursor>)
    ensures var saved := Saved(lib, s.(routes := s.routes[r.Identity() := route]), r);
            && Published(lib, s, r, route, cursor) ==
                 saved.(business := s.business[r.BusinessKey() := r.recordID],
                        semantic := if ClaimsSemantic(r) then s.semantic[r.SemanticKey() := r.recordID] else s.semantic,
                        cursors := WithCursor(s.cursors, r, cursor))
            && saved.business == s.business && saved.semantic == s.semantic && saved.cursors == s.cursors
  {
    hide Kept;
  }

  lemma DeduplicatedNew(lib: Library, s: Store, prepared: Record)
    ensures !Deduplicated(s, Distinguished(lib, s, prepared)).Turned?
    ensures forall r, disposition, revision :: !Admitted(lib, s, r, disposition, revision).Repeated?
  {
    hide Distinguished, AtCapacity;
  }

  lemma KeysOf(r: Record)
    ensures Key3(r.platform, r.accountID, r.businessID) == r.BusinessKey()
    ensures Key3(r.platform, r.accountID, r.semanticID) == r.SemanticKey()
    ensures Key2(r.platform, r.accountID) == r.AccountKey()
  {
  }

  lemma PrunedStops(s: Store, preserve: ChatIdentity)
    ensures s.history == [] || (s.history[0].id in s.records && s.now < s.history[0].expires) ==>
              Pruned(s, preserve) == s
  {
  }

  predicate Listed(r: Record, route: Option<ChatIdentity>, pendingOnly: bool) {
    (route.Some? ==> r.Identity() == route.value) && (pendingOnly ==> !r.Terminal())
  }

  function Shown(r: Record, metadata: bool): Record {
    if metadata then r.(text := "") else r
  }

  lemma DistinctSequences(lib: Library, s: Store, a: string, b: string)
    requires Inv(lib, s) && a in s.records && b in s.records && a != b
    ensures !(s.records[a].Identity() == s.records[b].Identity() && s.records[a].sequence == s.records[b].sequence)
  {
    hide RecordsOK, HistoryOK, BusinessOK, SemanticOK, RoutesOK, TasksOK, Bounded;
  }

  /** One step of sort.Slice on distinct positions. */
  method InsertSorted(out: seq<Record>, r: Record) returns (more: seq<Record>)
    requires Sorted(out) && forall x :: x in out ==> !(x.Identity() == r.Identity() && x.sequence == r.sequence)
    ensures Sorted(more) && forall x :: x in more <==> x in out || x == r
  {
    hide Before;
    var i := 0;
    while i < |out| && Before(out[i], r)
      invariant 0 <= i <= |out| && forall j :: 0 <= j < i ==> Before(out[j], r)
    {
      i := i + 1;
    }
    if i < |out| {
      assert out[i] in out;
      BeforeTotal(out[i], r);
      forall j | i < j < |out|
        ensures Before(r, out[j])
      {
        BeforeTransitive(r, out[i], out[j]);
      }
    }
    more := out[..i] + [r] + out[i..];
    assert out == out[..i] + out[i..];
  }

  ghost predicate Copies(out: seq<Record>, records: map<string, Record>, order: seq<string>, route: ChatIdentity) {
    && Enumerates(order, PendingOn(records, route)) && |order| == |out|
    && forall i :: 0 <= i < |out| ==> order[i] in records && out[i] == records[order[i]]
  }

  /** Is a pending record of the route already being delivered? */
  method AnyInFlight(out: seq<Record>, ghost records: map<string, Record>, ghost order: seq<string>,
                     ghost route: ChatIdentity)
    returns (busy: bool)
    requires Copies(out, records, order, route)
    ensures busy <==> exists id <- PendingOn(records, route) :: InFlight(records[id].state)
  {
    for i := 0 to |out|
      invariant forall j :: 0 <= j < i ==> !InFlight(out[j].state)
    {
      if out[i].state.Dispatching? || out[i].state.Unknown? {
        assert order[i] in (set x | x in order);
        return true;
      }
    }
    forall id | id in PendingOn(records, route)
      ensures !InFlight(records[id].state)
    {
      assert id in (set x | x in order);
    }
    return false;
  }

  /** Does a pending record of the route stand in the way of changing it? */
  method AnyHolding(out: seq<Record>, ghost records: map<string, Record>, ghost order: seq<string>,
                    ghost route: ChatIdentity)
    returns (held: bool)
    requires Copies(out, records, order, route)
    ensures held <==> exists id <- PendingOn(records, route) :: HoldsRoute(records[id])
  {
    for i := 0 to |out|
      invariant forall j :: 0 <= j < i ==> !HoldsRoute(out[j])
    {
      if out[i].state.Dispatching? || out[i].state.Unknown? || (out[i].kind == "task" && out[i].state.Received?) {
        assert order[i] in (set x | x in order);
        return true;
      }
    }
    forall id | id in PendingOn(records, route)
      ensures !HoldsRoute(records[id])
    {
      assert id in (set x | x in order);
    }
    return false;
  }

  /** Any order will do where an operation visits nothing. */
  ghost function SomeOrder(ids: set<string>): (order: seq<string>)
    ensures Enumerates(order, ids)
  {
    if ids == {} then []
    else
      var id :| id in ids;
      var rest := SomeOrder(ids - {id});
      assert id !in rest by {
        assert id !in (set x | x in rest);
      }
      assert (set x | x in [id] + rest) == {id} + (set x | x in rest);
      [id] + rest
  }
}
