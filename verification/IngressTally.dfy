/** Sums over the retained records: what the incremental counters stand for
    (internal/gateway/im_ingress_store.go:57, 120-140). */
module IngressTally {
  import opened IngressTypes
  import MapSum

  datatype Tally = Tally(pending: int, bytes: int, tombstones: int, memory: int)

  const ZERO := Tally(0, 0, 0, 0)

  function Plus(a: Tally, b: Tally): Tally {
    Tally(a.pending + b.pending, a.bytes + b.bytes, a.tombstones + b.tombstones, a.memory + b.memory)
  }

  /** What one record contributes, overall (None) or to one account key. */
  function Of(r: Record, account: Option<string>): Tally {
    if account.Some? && r.AccountKey() != account.value then ZERO
    else if r.Terminal() then Tally(0, 0, 1, r.size)
    else Tally(1, r.size, 0, r.size)
  }

  function Pending(account: Option<string>): Record -> int {
    r => Of(r, account).pending
  }

  function Bytes(account: Option<string>): Record -> int {
    r => Of(r, account).bytes
  }

  function Tombstones(account: Option<string>): Record -> int {
    r => Of(r, account).tombstones
  }

  function Memory(account: Option<string>): Record -> int {
    r => Of(r, account).memory
  }

  ghost function Sum(records: map<string, Record>, account: Option<string>): Tally {
    Tally(MapSum.Sum(records, Pending(account)), MapSum.Sum(records, Bytes(account)),
          MapSum.Sum(records, Tombstones(account)), MapSum.Sum(records, Memory(account)))
  }

  /** The sum does not depend on the order in which records are taken. */
  lemma SumRemove(records: map<string, Record>, id: string, account: Option<string>)
    requires id in records
    ensures Sum(records, account) == Plus(Of(records[id], account), Sum(records - {id}, account))
  {
    hide Of, MapSum.Sum;
    MapSum.Removed(records, id, Pending(account));
    MapSum.Removed(records, id, Bytes(account));
    MapSum.Removed(records, id, Tombstones(account));
    MapSum.Removed(records, id, Memory(account));
  }

  lemma SumInsert(records: map<string, Record>, r: Record, account: Option<string>)
    requires r.recordID !in records
    ensures Sum(records[r.recordID := r], account) == Plus(Of(r, account), Sum(records, account))
  {
    hide Of, Sum;
    var more := records[r.recordID := r];
    SumRemove(more, r.recordID, account);
    assert more - {r.recordID} == records;
  }

  lemma SumReplace(records: map<string, Record>, r: Record, account: Option<string>)
    requires r.recordID in records
    ensures Plus(Sum(records[r.recordID := r], account), Of(records[r.recordID], account)) ==
            Plus(Sum(records, account), Of(r, account))
  {
    hide Of, Sum;
    SumRemove(records, r.recordID, account);
    SumInsert(records - {r.recordID}, r, account);
    assert (records - {r.recordID})[r.recordID := r] == records[r.recordID := r];
  }

  lemma SumEmpty(account: Option<string>)
    ensures Sum(map[], account) == ZERO
  {
  }

  /** Pending records and tombstones together are all records. */
  lemma {:induction false} SumCounts(records: map<string, Record>)
    ensures Sum(records, None).pending + Sum(records, None).tombstones == |records|
    decreases |records|
  {
    hide Sum;
    SumEmpty(None);
    if records != map[] {
      var id := MapSum.AnyKey(records);
      MapSum.OneLess(records, id);
      SumRemove(records, id, None);
      SumCounts(records - {id});
    }
  }
}
