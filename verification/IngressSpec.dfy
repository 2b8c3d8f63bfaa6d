/** The ingress store as one set of records: every operation stated without the
    store's secondary indexes, counters and history compaction
    (internal/gateway/im_ingress_store.go, im_ingress_store_routes.go,
    im_ingress_progress.go). `IngressStore.IngressStore` implements it. */
module IngressSpec {
  import Utf8
  import opened IngressTypes
  import opened IngressTally

  /** `issued` is every random identifier handed out so far. */
  datatype Store = Store(
    records: map<string, Record>, routes: map<ChatIdentity, Route>,
    business: map<string, string>, semantic: map<string, string>,
    cursors: map<string, Cursor>, history: seq<HistoryEntry>,
    now: int, closed: bool, issued: set<string>)

  const EMPTY := Store(map[], map[], map[], map[], map[], [], 0, false, {})

  predicate Fresh(s: Store, id: string) {
    id != "" && id !in s.issued
  }

  ghost function OnRoute(records: map<string, Record>, route: ChatIdentity): set<string> {
    set id | id in records && records[id].Identity() == route
  }

  ghost function PendingOn(records: map<string, Record>, route: ChatIdentity): set<string> {
    set id | id in records && records[id].Identity() == route && !records[id].Terminal()
  }

  // save

  /** What the store keeps of a record. */
  function Kept(lib: Library, r: Record): Record {
    var body := if r.Terminal() then r.(text := "") else r;
    body.(size := lib.RecordSize(body))
  }

  function Saved(lib: Library, s: Store, r: Record): Store {
    var ends := r.Terminal() && (r.recordID !in s.records || !s.records[r.recordID].Terminal());
    s.(records := s.records[r.recordID := Kept(lib, r)],
       history := if ends then s.history + [HistoryEntry(r.recordID, s.now + HISTORY_TTL)] else s.history)
  }

  // pruneHistory

  function Unbound(m: map<string, string>, key: string, id: string): map<string, string> {
    if key in m && m[key] == id then m - {key} else m
  }

  ghost function Forgotten(s: Store, id: string, preserve: ChatIdentity): Store
    requires id in s.records
  {
    var r := s.records[id];
    var records := s.records - {id};
    s.(records := records,
       business := Unbound(s.business, r.BusinessKey(), id),
       semantic := Unbound(s.semantic, r.SemanticKey(), id),
       routes := if OnRoute(records, r.Identity()) == {} && r.Identity() != preserve then s.routes - {r.Identity()}
         else s.routes)
  }

  ghost function Pruned(s: Store, preserve: ChatIdentity): Store
    decreases |s.history|
  {
    if s.history == [] then s
    else
      var entry := s.history[0];
      if entry.id in s.records && s.now < entry.expires then s
      else
        var rest := s.(history := s.history[1..]);
        Pruned(if entry.id in s.records then Forgotten(rest, entry.id, preserve) else rest, preserve)
  }

  // acceptRecord

  function InvalidInput(r: Record, cursor: Option<Cursor>): (reason: Option<string>)
    ensures reason.None? && cursor.Some? ==> ValidCursor(r.platform, cursor.value) && cursor.value.generation > 0
  {
    hide Utf8.Valid;
    if r.platform == "" || r.accountID == "" || r.chatID == "" || (r.senderID == "" && !r.state.Rejected?)
       || r.businessID == "" || !Utf8.Valid(r.text) || |r.text| > MAX_TEXT_BYTES then Some("invalid_input")
    else if exists v <- [r.platform, r.accountID, r.chatID, r.senderID, r.businessID, r.semanticID, r.deliveryID] ::
              |v| > MAX_SCOPED_ID_BYTES || !Utf8.Valid(v) then Some("invalid_identity")
    else if r.inputDigest != "" && !IsDigest(r.inputDigest) then Some("invalid_input_digest")
    else if r.kind != "task" && r.kind != "control" then Some("invalid_kind")
    else if cursor.Some? && !ValidCursor(r.platform, cursor.value) then Some("invalid_cursor")
    else None
  }

  function CursorOf(cursors: map<string, Cursor>, key: string): Cursor {
    if key in cursors then cursors[key] else NO_CURSOR
  }

  /** checkCursor */
  function CheckCursor(cursors: map<string, Cursor>, platform: string, account: string, expected: nat,
                       next: Cursor): Error {
    var current := CursorOf(cursors, Key2(platform, account));
    if !ValidAccount(account) || !ValidCursor(platform, next) then Failed
    else if next.generation != expected + 1 || current.generation != expected then Conflict
    else if (next.wechat.Some? && next.wechat.value.accountID != account)
            || (next.telegram.Some? && next.telegram.value.botID != "" && next.telegram.value.botID != account) then
                 Failed
    else if current.wechat.Some? && next.wechat.Some?
      && next.wechat.value.batchVersion <= current.wechat.value.batchVersion then Conflict
    else NoError
  }

  const CONFLICT_REASON := "update_id_conflict"
  const DUPLICATE_REASON := "semantic_duplicate"

  /** Reasons that only the store itself assigns. */
  predicate Reserved(reason: string) {
    reason == CONFLICT_REASON || reason == DUPLICATE_REASON
  }

  function Refusing(reason: string): ReceiveResult {
    ReceiveResult(Refused, "", Unset, reason)
  }

  function Retrying(reason: string): ReceiveResult {
    ReceiveResult(Retryable, "", Unset, reason)
  }

  datatype Prepared = Out(result: ReceiveResult) | In(r: Record)

  /** Identifiers, clock checks and field clearing for a new record. */
  function Prepare(r: Record, id: string, now: int): Prepared {
    var stamped := r.(recordID := id, requestID := "im-" + id,
                      receivedAt := if r.receivedAt == ZERO_TIME || now < r.receivedAt then now else r.receivedAt,
                      updatedAt := now, state := if r.state.Unset? then Received else r.state);
    if r.receivedAt != ZERO_TIME && now + 5 * MINUTE < r.receivedAt then Out(Refusing("received_time_out_of_range"))
    else if !stamped.state.Received? && !stamped.state.Rejected? then Out(Refusing("invalid_state"))
    else
      var timely :=
        if stamped.sourceTime != ZERO_TIME && (stamped.sourceTime < now - 24 * HOUR
                                               || now + 5 * MINUTE < stamped.sourceTime)
        then stamped.(state := Rejected, reason := "source_time_out_of_range") else stamped;
      var plain := if timely.kind == "control" then timely.(text := "", inputDigest := "") else timely;
      In(if plain.state.Rejected? then plain.(text := "") else plain)
  }

  /** A Telegram update whose number was used for other content is kept as a
      rejected record under a derived business ID. */
  function Distinguished(lib: Library, s: Store, r: Record): Record {
    if r.platform == "telegram" && r.BusinessKey() in s.business && s.business[r.BusinessKey()] in s.records then
      var prior := s.records[s.business[r.BusinessKey()]];
      if prior.chatID != r.chatID || prior.semanticID != r.semanticID || prior.inputDigest != r.inputDigest then
        r.(businessID := "update-conflict:" + lib.conflictDigest(r.businessID, r.chatID, r.semanticID, r.inputDigest),
           state := Rejected, reason := CONFLICT_REASON, text := "")
      else r
    else r
  }

  predicate ClaimsSemantic(r: Record) {
    r.semanticID != "" && !Reserved(r.reason)
  }

  datatype Verdict =
    | Turned(result: ReceiveResult)
    | Repeated(id: string)
    | New(record: Record, route: Route, disposition: Disposition)

  /** Deduplication by business key, then by semantic key. */
  function Deduplicated(s: Store, r: Record): Verdict {
    if r.BusinessKey() in s.business then Repeated(s.business[r.BusinessKey()])
    else if r.semanticID != "" && r.reason != CONFLICT_REASON && r.SemanticKey() in s.semantic then
      if r.platform == "telegram" then
        New(r.(state := Rejected, reason := DUPLICATE_REASON, text := ""), NO_ROUTE, Duplicate)
      else Repeated(s.semantic[r.SemanticKey()])
    else New(r, NO_ROUTE, Accepted)
  }

  ghost predicate AtCapacity(s: Store, r: Record, size: int) {
    var reserve := if r.statusQuery && r.kind == "control" && r.state.Received? then 1 else 0;
    var account := Sum(s.records, Some(r.AccountKey()));
    var total := Sum(s.records, None);
    || |s.records| >= HISTORY_LIMIT
    || total.memory + size > MEMORY_LIMIT
    || account.pending + account.tombstones >= HISTORY_LIMIT
    || (!r.Terminal() &&
        (|PendingOn(s.records, r.Identity())| >= 64 + reserve
         || account.pending >= 1024 + reserve
         || account.bytes + size > ACCOUNT_BYTES_LIMIT
         || total.pending >= 4096 + reserve
         || total.bytes + size > MEMORY_LIMIT))
  }

  predicate OnCurrentRoute(r: Record, route: Route) {
    route.phase == "active" && route.revision == r.routeRevision && route.authorizationDigest == r.authorizationDigest
  }

  function RouteFor(s: Store, r: Record, revision: string): Route {
    if r.Identity() in s.routes then s.routes[r.Identity()]
    else NO_ROUTE.(identity := r.Identity(), revision := revision, phase := "unbound")
  }

  /** The route barrier and the capacity limits for a record that is not a repetition. */
  ghost function Admitted(lib: Library, s: Store, r: Record, disposition: Disposition, revision: string): Verdict {
    var route := RouteFor(s, r, revision);
    var numbered := r.(sequence := route.sequence + 1);
    if !r.state.Rejected? && r.kind == "task" && !OnCurrentRoute(r, route) then Turned(Retrying("route_changed"))
    else if AtCapacity(s, numbered, lib.RecordSize(numbered)) then Turned(Retrying("capacity"))
    else New(numbered, route.(sequence := route.sequence + 1), disposition)
  }

  /** The decision about one prepared record against the pruned store. */
  ghost function Decide(lib: Library, s: Store, prepared: Record, cursor: Option<Cursor>, revision: string): Verdict
    requires cursor.Some? ==> cursor.value.generation > 0
  {
    if cursor.Some? && CheckCursor(s.cursors, prepared.platform, prepared.accountID, cursor.value.generation - 1,
                                   cursor.value) != NoError
    then Turned(Retrying("cursor_generation_conflict"))
    else
      var verdict := Deduplicated(s, Distinguished(lib, s, prepared));
      if verdict.New? then Admitted(lib, s, verdict.record, verdict.disposition, revision) else verdict
  }

  function WithCursor(cursors: map<string, Cursor>, r: Record, cursor: Option<Cursor>): map<string, Cursor> {
    if cursor.Some? then cursors[r.AccountKey() := cursor.value] else cursors
  }

  function Published(lib: Library, s: Store, r: Record, route: Route, cursor: Option<Cursor>): Store {
    Saved(lib, s, r).(
      routes := s.routes[r.Identity() := route],
      business := s.business[r.BusinessKey() := r.recordID],
      semantic := if ClaimsSemantic(r) then s.semantic[r.SemanticKey() := r.recordID] else s.semantic,
      cursors := WithCursor(s.cursors, r, cursor))
  }

  /** `valid` is the transport callback's answer, `available` whether the store
      could be locked before the context ended. */
  datatype Request = Request(input: Record, cursor: Option<Cursor>, valid: bool, available: bool, id: string,
                             revision: string)

  /** The decision carried out: with its checkpoint, or not at all. */
  ghost function Conclude(lib: Library, pruned: Store, q: Request, prepared: Record): (Store, ReceiveResult)
    requires q.cursor.Some? ==> q.cursor.value.generation > 0
  {
    match Decide(lib, pruned, prepared, q.cursor, q.revision)
    case Turned(result) => (pruned, result)
    case Repeated(id) =>
      (pruned.(cursors := WithCursor(pruned.cursors, q.input, q.cursor)),
       if id in pruned.records then ReceiveResult(Duplicate, pruned.records[id].recordID, pruned.records[id].state,
                                                  pruned.records[id].reason)
       else ReceiveResult(Duplicate, "", Unset, ""))
    case New(r, route, disposition) =>
      (Published(lib, pruned, r, route, q.cursor),
       ReceiveResult(if r.state.Rejected? && disposition != Duplicate then Refused
                     else disposition, r.recordID, r.state, r.reason))
  }

  ghost function Accept(lib: Library, s: Store, q: Request): (Store, ReceiveResult) {
    hide *;
    var invalid := InvalidInput(q.input, q.cursor);
    if invalid.Some? then (s, Refusing(invalid.value))
    else if !q.valid then (s, Retrying("transport_identity_changed"))
    else if !q.available || s.closed then (s, Retrying("ingress_unavailable"))
    else
      var pruned := Pruned(s, q.input.Identity()).(issued := s.issued + {q.id, q.revision});
      var prepared := Prepare(q.input, q.id, s.now);
      if prepared.Out? then (pruned, prepared.result) else Conclude(lib, pruned, q, prepared.r)
  }

  // UpdateRecord

  /** A state change as the store's callers make it: it may fail, and it keeps
      everything that identifies the record. */
  type Change = Record -> Option<Record>

  ghost predicate SameOrigin(r: Record, r': Record) {
    && r'.recordID == r.recordID && r'.Identity() == r.Identity()
    && r'.businessID == r.businessID && r'.semanticID == r.semanticID
    && r'.sequence == r.sequence && r'.kind == r.kind
    && r'.routeRevision == r.routeRevision && r'.authorizationDigest == r.authorizationDigest
  }

  ghost predicate Lawful(change: Change) {
    forall r :: change(r).Some? ==>
      SameOrigin(r, change(r).value) && !change(r).value.state.Unset?
        && (Reserved(change(r).value.reason) ==> Reserved(r.reason))
  }

  function Update(lib: Library, s: Store, id: string, allowed: set<State>, change: Change): (Store, Error) {
    if s.closed then (s, Closed)
    else if id !in s.records then (s, Missing)
    else if s.records[id].state !in allowed then (s, Blocked)
    else
      match change(s.records[id])
      case None => (s, Failed)
      case Some(r) => (Saved(lib, s, r.(updatedAt := s.now)), NoError)
  }

  // Routes

  function RouteOf(s: Store, route: ChatIdentity): Route {
    if route in s.routes then s.routes[route] else NO_ROUTE
  }

  /** Save again, in this order, the records that `change` selects. */
  function Resaved(lib: Library, s: Store, order: seq<string>, change: Change): Store
    decreases |order|
  {
    if order == [] then s
    else
      Resaved(lib,
        if order[0] in s.records && change(s.records[order[0]]).Some?
        then Saved(lib, s, change(s.records[order[0]]).value.(updatedAt := s.now)) else s,
        order[1..], change)
  }

  function Quarantining(): Change {
    (r: Record) => if r.state.Received? then Some(r.(state := Quarantined, reason := "route_identity_changed"))
      else None
  }

  function Pinning(revision: string, session: string): Change {
    (r: Record) => if r.state.Received? && r.routeRevision == revision
      && r.sessionID == "" then Some(r.(sessionID := session)) else None
  }

  predicate InFlight(state: State) {
    state.Dispatching? || state.Unknown?
  }

  /** Map iteration visits the pending records in any order. */
  ghost predicate Enumerates(order: seq<string>, ids: set<string>) {
    (forall i, j :: 0 <= i < j < |order| ==> order[i] != order[j]) && (set id | id in order) == ids
  }

  ghost function EnsureRoute(lib: Library, s: Store, route: ChatIdentity, digest: string, workspace: string,
                             session: string,
                             revision: string, order: seq<string>): (Store, Error) {
    if s.closed then (s, Closed)
    else
      var pruned := Pruned(s, route).(issued := s.issued + {revision});
      var current := RouteOf(pruned, route);
      if current.phase == "active" && current.authorizationDigest == digest && current.workspaceID == workspace
        && current.sessionID == session
      then (pruned, NoError)
      else if exists id <- PendingOn(pruned.records, route) :: InFlight(pruned.records[id].state) then (pruned, Blocked)
      else
        (Resaved(lib, pruned, order, Quarantining()).(routes := pruned.routes[route :=
           Route(route, revision, digest, workspace, session, "active", current.sequence)]), NoError)
  }

  ghost predicate HoldsRoute(r: Record) {
    InFlight(r.state) || (r.kind == "task" && r.state.Received?)
  }

  ghost function BeginRouteChange(s: Store, route: ChatIdentity, revision: string): (Store, Error) {
    if s.closed then (s, Closed)
    else if exists id <- PendingOn(s.records, route) :: HoldsRoute(s.records[id]) then (s, Blocked)
    else
      (s.(issued := s.issued + {revision},
          routes := s.routes[route := RouteOf(s, route).(identity := route, revision := revision,
                                                         phase := "changing")]), NoError)
  }

  function FinishRouteChange(s: Store, route: ChatIdentity, revision: string, digest: string, workspace: string,
                             session: string): (Store, Error) {
    if s.closed then (s, Closed)
    else if route !in s.routes then (s, Missing)
    else if s.routes[route].revision != revision || s.routes[route].phase != "changing" then (s, Blocked)
    else
      (s.(routes := s.routes[route := s.routes[route].(authorizationDigest := digest, workspaceID := workspace,
                                                         sessionID := session, phase := "active")]), NoError)
  }

  function BindRouteSession(lib: Library, s: Store, route: ChatIdentity, revision: string, session: string,
                            order: seq<string>): (Store, Error) {
    if s.closed then (s, Closed)
    else if route !in s.routes then (s, Missing)
    else
      var current := s.routes[route];
      if session == "" || current.phase != "active" || current.revision != revision
        || (current.sessionID != "" && current.sessionID != session)
      then (s, Blocked)
      else (Resaved(lib, s, order, Pinning(revision,
                                           session)).(routes := s.routes[route := current.(sessionID := session)]),
                                             NoError)
  }

  // Cursors

  function CommitCursor(s: Store, platform: string, account: string, expected: nat, next: Cursor,
                        valid: bool): (Store, Error) {
    if !valid then (s, TransportChanged)
    else if s.closed then (s, Closed)
    else
      var e := CheckCursor(s.cursors, platform, account, expected, next);
      if e != NoError then (s, e) else (s.(cursors := s.cursors[Key2(platform, account) := next]), NoError)
  }

  function Close(s: Store): Store {
    EMPTY.(now := s.now, closed := true, issued := s.issued)
  }

  // Runs

  datatype Op =
    | OpAccept(q: Request)
    | OpUpdate(id: string, allowed: set<State>, change: Change)
    | OpEnsure(route: ChatIdentity, digest: string, workspace: string, session: string, revision: string,
               order: seq<string>)
    | OpBegin(route: ChatIdentity, revision: string)
    | OpFinish(route: ChatIdentity, revision: string, digest: string, workspace: string, session: string)
    | OpBind(route: ChatIdentity, revision: string, session: string, order: seq<string>)
    | OpCursor(platform: string, account: string, expected: nat, next: Cursor, valid: bool)
    | OpTick(elapsed: nat)
    | OpClose

  ghost function Step(lib: Library, s: Store, op: Op): Store {
    match op
    case OpAccept(q) => Accept(lib, s, q).0
    case OpUpdate(id, allowed, change) => Update(lib, s, id, allowed, change).0
    case OpEnsure(route, digest, workspace, session, revision, order) =>
      EnsureRoute(lib, s, route, digest, workspace, session, revision, order).0
    case OpBegin(route, revision) => BeginRouteChange(s, route, revision).0
    case OpFinish(route, revision, digest, workspace, session) => FinishRouteChange(s, route, revision, digest,
        workspace, session).0
    case OpBind(route, revision, session, order) => BindRouteSession(lib, s, route, revision, session, order).0
    case OpCursor(platform, account, expected, next, valid) => CommitCursor(s, platform, account, expected, next,
                                                                            valid).0
    case OpTick(elapsed) => s.(now := s.now + elapsed)
    case OpClose => Close(s)
  }

  /** How the gateway calls the store: random identifiers do not repeat, updates
      are lawful and never revive a settled record, reserved reasons are the store's own. */
  ghost predicate Allowed(s: Store, op: Op) {
    match op
    case OpAccept(q) => Fresh(s, q.id) && Fresh(s, q.revision) && q.id != q.revision && !Reserved(q.input.reason)
    case OpUpdate(id, allowed, change) => Lawful(change) && forall state <- allowed :: !Final(state)
    case OpEnsure(route, _, _, _, revision, order) => Fresh(s, revision)
      && Enumerates(order, PendingOn(Pruned(s, route).records, route))
    case OpBegin(_, revision) => Fresh(s, revision)
    case OpBind(route, _, _, order) => Enumerates(order, PendingOn(s.records, route))
    case _ => true
  }
}
