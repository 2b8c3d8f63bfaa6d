/** Records, routes and cursors of the in-memory ingress store
    (internal/gateway/im_ingress.go, internal/im/ingress_types.go,
    internal/im/ingress_cursor.go). */
module IngressTypes {
  import Utf8

  datatype Option<+T> = None | Some(value: T)

  // Instants count nanoseconds; 0 is the zero time.
  const ZERO_TIME: int := 0
  const MINUTE: int := 60_000_000_000
  const HOUR: int := 60 * MINUTE
  const HISTORY_TTL: int := 24 * HOUR

  const HISTORY_LIMIT: int := 100000
  const MAX_SCOPED_ID_BYTES: int := 2048
  const MAX_TEXT_BYTES: int := 65536
  const ACCOUNT_BYTES_LIMIT: int := 16777216
  const MEMORY_LIMIT: int := 67108864

  datatype ChatIdentity = ChatIdentity(platform: string, accountID: string, chatID: string)

  datatype State =
    | Unset | Received | Dispatching | Unknown
    | Consumed | Rejected | Quarantined | Expired | Submitted | Completed

  predicate Final(state: State) {
    state.Consumed? || state.Rejected? || state.Completed? || state.Submitted? || state.Expired? || state.Quarantined?
  }

  datatype Record = Record(
    statusQuery: bool, size: int,
    recordID: string, platform: string, accountID: string, chatID: string, senderID: string,
    businessID: string, semanticID: string, deliveryID: string,
    sourceTime: int, receivedAt: int, sequence: nat, kind: string, state: State, reason: string, text: string,
    authorizationDigest: string, routeRevision: string, workspaceID: string, sessionID: string, requestID: string,
    dispatchRuntimeID: string, dispatchSessionEpoch: nat, receiptStatus: string, updatedAt: int,
    inputDigest: string, controlTarget: string)
  {
    function Identity(): ChatIdentity {
      ChatIdentity(platform, accountID, chatID)
    }

    predicate Terminal() {
      Final(state)
    }

    function AccountKey(): string {
      Key2(platform, accountID)
    }

    function BusinessKey(): string {
      Key3(platform, accountID, businessID)
    }

    function SemanticKey(): string {
      Key3(platform, accountID, semanticID)
    }
  }

  /** compositeKey. The joined key is not injective when a part contains "|";
      every statement about keys is about the joined form the store uses. */
  function Key2(a: string, b: string): string {
    a + "|" + b
  }

  function Key3(a: string, b: string, c: string): string {
    Key2(a, b) + "|" + c
  }

  datatype Route = Route(identity: ChatIdentity, revision: string, authorizationDigest: string,
                         workspaceID: string, sessionID: string, phase: string, sequence: nat)

  const NO_ROUTE := Route(ChatIdentity("", "", ""), "", "", "", "", "", 0)

  datatype TelegramCursor = TelegramCursor(botID: string, pendingOffset: Option<int>, observedAt: int, state: string)
  datatype WechatCursor = WechatCursor(accountID: string, buf: string, batchVersion: nat)
  datatype Cursor = Cursor(kind: string, version: int, generation: nat,
                           telegram: Option<TelegramCursor>, wechat: Option<WechatCursor>)

  const NO_CURSOR := Cursor("", 0, 0, None, None)

  /** ValidateIngressCursor on a present cursor. */
  predicate ValidCursor(platform: string, c: Cursor) {
    && c.version == 1 && c.generation > 0
    && if platform == "telegram" then
         && c.kind == "telegram" && c.telegram.Some? && c.wechat.None?
         && var t := c.telegram.value;
         && (t.state == "pending" || t.state == "confirmed" || t.state == "empty")
         && (if t.state == "pending" then t.pendingOffset.Some? && t.pendingOffset.value >= 0
             && t.observedAt != ZERO_TIME
             else t.pendingOffset.None?)
       else if platform == "wechat" then
         && c.kind == "wechat" && c.wechat.Some? && c.telegram.None?
         && ValidAccount(c.wechat.value.accountID) && c.wechat.value.batchVersion > 0
         && |c.wechat.value.buf| <= MAX_TEXT_BYTES && Utf8.Valid(c.wechat.value.buf)
       else false
  }

  predicate ValidAccount(account: string) {
    account != "" && |account| <= MAX_SCOPED_ID_BYTES && Utf8.Valid(account)
  }

  predicate IsHex(c: char) {
    '0' <= c <= '9' || 'a' <= c <= 'f' || 'A' <= c <= 'F'
  }

  /** hex.DecodeString succeeds with 32 bytes. */
  predicate IsDigest(s: string) {
    |s| == 64 && forall i :: 0 <= i < |s| ==> IsHex(s[i])
  }

  datatype HistoryEntry = HistoryEntry(id: string, expires: int)

  datatype Disposition = Accepted | Duplicate | Refused | Retryable

  datatype ReceiveResult = ReceiveResult(disposition: Disposition, recordID: string, state: State, reason: string)

  datatype Error = NoError | Missing | Blocked | Closed | Conflict | TransportChanged | Failed

  /** Library functions the store calls: the encoded size of a record and the
      digest that names a conflicting Telegram update. */
  datatype Library = Library(encodedSize: Record -> nat, conflictDigest: (string, string, string, string) -> string)
  {
    /** recordSize: unexported fields are not encoded. */
    function RecordSize(r: Record): nat {
      encodedSize(r.(statusQuery := false, size := 0))
    }
  }
}
