/** Looking up, setting and spelling out entries of a mapping
    (internal/gateway/config_store.go:164-202, internal/gateway/config_yaml.go:10-25). */
module YamlEdit {
  import opened YamlMerge
  import opened YamlCopy
  import opened YamlDedupe

  // Entries of a mapping by name

  /** Index of the first pair from `i` on with this name, or the number of pairs. */
  function PairIndex(h: Heap, content: seq<Id>, key: string, i: nat): (k: nat)
    requires AllIn(h, content) && 2 * i <= |content|
    ensures i <= k <= |content| / 2
    ensures k < |content| / 2 ==> h[content[2 * k]].value == key
    ensures forall j :: i <= j < k ==> h[content[2 * j]].value != key
    decreases |content| - 2 * i
  {
    if 2 * i + 1 < |content| && h[content[2 * i]].value != key then PairIndex(h, content, key, i + 1) else i
  }

  /** mappingValue */
  function ValueOf(h: Heap, content: seq<Id>, key: string): Option<Id>
    requires AllIn(h, content)
  {
    var k := PairIndex(h, content, key, 0);
    if k < |content| / 2 then Some(content[2 * k + 1]) else None
  }

  lemma FoundAt(h: Heap, content: seq<Id>, key: string, k: nat)
    requires AllIn(h, content) && k <= |content| / 2
    requires forall j :: 0 <= j < k ==> h[content[2 * j]].value != key
    requires k < |content| / 2 ==> h[content[2 * k]].value == key
    ensures PairIndex(h, content, key, 0) == k
  {
  }

  /** No pair of this content is a merge. */
  predicate NoMergeKeys(h: Heap, content: seq<Id>)
    requires AllIn(h, content)
  {
    forall i :: 0 <= i < |content| / 2 ==> h[content[2 * i]].tag != MERGE
  }

  // independentMapping

  /** The content of a mapping with these entries. */
  function Flat(entries: seq<Entry>): (r: seq<Id>)
    ensures |r| == 2 * |entries|
    ensures forall i :: 0 <= i < |entries| ==> r[2 * i] == entries[i].key && r[2 * i + 1] == entries[i].value
  {
    if entries == [] then [] else Flat(entries[..|entries| - 1]) + [entries[|entries| - 1].key,
                                                                    entries[|entries| - 1].value]
  }

  /** Entries as they come from explicit pairs of the heap. */
  predicate Genuine(h: Heap, entries: seq<Entry>) {
    forall i :: 0 <= i < |entries| ==>
      var e := entries[i]; e.key in h && e.value in h && h[e.key].value == e.name && h[e.key].tag != MERGE
  }

  lemma {:induction false} OwnGenuine(h: Heap, content: seq<Id>, i: nat)
    requires AllIn(h, content) && 2 * i <= |content|
    ensures Genuine(h, Own(h, content, i))
    decreases i
  {
    if i > 0 {
      OwnGenuine(h, content, i - 1);
    }
  }

  lemma {:induction false} AbsorbGenuine(h: Heap, out: seq<Entry>, more: seq<Entry>)
    requires Genuine(h, out) && Genuine(h, more)
    ensures Genuine(h, Absorb(out, more))
    decreases |more|
  {
    if more != [] {
      AbsorbGenuine(h, out, more[..|more| - 1]);
    }
  }

  lemma {:induction false} MaterializedGenuine(h: Heap, n: Id, seen: set<Id>)
    requires Closed(h) && n in h && seen <= h.Keys && Materialized(h, n, seen).Some?
    ensures Genuine(h, Materialized(h, n, seen).value)
    decreases |h.Keys - seen|, 0
  {
    Shrinks(h.Keys, seen, n);
    if h[n].kind.Alias? {
      MaterializedGenuine(h, h[n].target, seen + {n});
    } else {
      MaterializedStep(h, n, seen);
      OwnGenuine(h, h[n].content, |h[n].content| / 2);
      MergedGenuine(h, Explicit(h, n), Parts(h, MergeValues(h, n)), seen + {n});
    }
  }

  lemma {:induction false} MergedGenuine(h: Heap, out: seq<Entry>, parts: seq<Id>, seen: set<Id>)
    requires Closed(h) && AllIn(h, parts) && seen <= h.Keys && Genuine(h, out) && MergedInto(h, out, parts, seen).Some?
    ensures Genuine(h, MergedInto(h, out, parts, seen).value)
    decreases |h.Keys - seen|, |parts| + 1
  {
    if parts != [] {
      MergedGenuine(h, out, parts[..|parts| - 1], seen);
      MaterializedGenuine(h, parts[|parts| - 1], seen);
      AbsorbGenuine(h, MergedInto(h, out, parts[..|parts| - 1], seen).value,
                    Materialized(h, parts[|parts| - 1], seen).value);
    }
  }

  lemma FlatUnmerged(h: Heap, entries: seq<Entry>)
    requires Genuine(h, entries)
    ensures AllIn(h, Flat(entries)) && NoMergeKeys(h, Flat(entries)) && |Flat(entries)| % 2 == 0
  {
    var flat := Flat(entries);
    forall i | 0 <= i < |flat|
      ensures flat[i] in h
    {
      assert flat[i] == if i % 2 == 0 then entries[i / 2].key else entries[i / 2].value by {
        assert i == 2 * (i / 2) + i % 2;
      }
    }
  }

  /** Spelled out, the entries are explicit and no merge is left. */
  lemma {:induction false} FlatOwn(h: Heap, entries: seq<Entry>)
    requires Genuine(h, entries)
    ensures AllIn(h, Flat(entries))
    ensures Own(h, Flat(entries), |entries|) == entries && Merges(h, Flat(entries), |entries|) == []
    decreases |entries|
  {
    if entries == [] {
      assert Flat(entries) == [] && Own(h, [], 0) == [] && Merges(h, [], 0) == [];
    } else {
      var front, last := entries[..|entries| - 1], entries[|entries| - 1];
      FlatOwn(h, front);
      assert Flat(entries) == Flat(front) + [last.key, last.value];
      FlatStep(h, front, last, Flat(entries));
      assert front + [last] == entries;
    }
  }

  lemma FlatStep(h: Heap, front: seq<Entry>, last: Entry, flat: seq<Id>)
    requires AllIn(h, Flat(front)) && Own(h, Flat(front), |front|) == front && Merges(h, Flat(front), |front|) == []
    requires last.key in h && last.value in h && h[last.key].value == last.name && h[last.key].tag != MERGE
    requires flat == Flat(front) + [last.key, last.value]
    ensures AllIn(h, flat) && Own(h, flat, |front| + 1) == front + [last] && Merges(h, flat, |front| + 1) == []
  {
    hide Own, Merges, Flat;
    PairPushed(h, Flat(front), last.key, last.value);
    assert |Flat(front)| / 2 == |front| && |flat| / 2 == |front| + 1;
  }

  lemma {:induction false} MaterializedMapping(h: Heap, n: Id, seen: set<Id>)
    requires Closed(h) && n in h && seen <= h.Keys && Materialized(h, n, seen).Some?
    ensures h[Resolved(h, n, seen)].kind.Mapping?
    decreases |h.Keys - seen|
  {
    Shrinks(h.Keys, seen, n);
    if h[n].kind.Alias? {
      MaterializedMapping(h, h[n].target, seen + {n});
    }
  }

  /** The mapping behind `n` with all its merges spelled out. */
  function SpelledOut(h: Heap, n: Id): (r: Node)
    requires Closed(h) && n in h && Materialized(h, n, {}).Some?
    ensures r.content == Flat(Materialized(h, n, {}).value)
  {
    h[Resolved(h, n, {})].(anchor := "", content := Flat(Materialized(h, n, {}).value))
  }

  const EMPTY_MAPPING := Node(Mapping, "!!map", "", "", 0, [])

  /** The mapping of its own that the value under `key` becomes: empty if there is no
      value or a null one, otherwise spelled out; None if it is not a mapping. */
  function ChildNode(h: Heap, parent: Id, key: string): (r: Option<Node>)
    requires Closed(h) && parent in h
  {
    ValueWithin(h, h[parent].content, key);
    match ValueOf(h, h[parent].content, key)
    case None => Some(EMPTY_MAPPING)
    case Some(v) =>
      if h[v].tag == "!!null" then Some(EMPTY_MAPPING)
      else if Materialized(h, v, {}).None? then None
      else Some(SpelledOut(h, v))
  }

  /** From `before` to `after`, the mapping was spelled out and `key` set to `value`:
      every other name has the value it effectively had. */
  ghost predicate Edited(before: Heap, after: Heap, parent: Id, key: string, value: Id) {
    && Closed(before) && parent in before && Materialized(before, parent, {}).Some?
    && var flat := Flat(Materialized(before, parent, {}).value);
       && AllIn(before, flat) && parent in after && AllIn(after, after[parent].content)
       && ValueOf(after, after[parent].content, key) == Some(value)
       && forall other :: other != key ==> ValueOf(after, after[parent].content, other) == ValueOf(before, flat, other)
  }

  predicate Unrenamed(h: Heap, h': Heap, ids: seq<Id>)
    requires AllIn(h, ids) && AllIn(h', ids)
  {
    forall i :: 0 <= i < |ids| ==> h'[ids[i]].value == h[ids[i]].value
  }

  /** After a value was set, that name has it and every other name has what it had. */
  lemma SetKeepsOthers(h: Heap, h': Heap, before: seq<Id>, after: seq<Id>, key: string, value: Id, name: Id,
                       other: string)
    requires AllIn(h, before) && AllIn(h', before) && AllIn(h', after) && |before| % 2 == 0
    requires Unrenamed(h, h', before)
    requires var k := PairIndex(h, before, key, 0);
             if k < |before| / 2 then after == before[2 * k + 1 := value]
               else after == before + [name, value] && name in h' && h'[name].value == key
    requires value in h'
    ensures ValueOf(h', after, key) == Some(value)
    ensures other != key ==> ValueOf(h', after, other) == ValueOf(h, before, other)
  {
    hide PairIndex, Unrenamed, AllIn;
    if PairIndex(h, before, key, 0) < |before| / 2 {
      ReplacedKeepsOthers(h, h', before, key, value, other);
    } else {
      AppendedKeepsOthers(h, h', before, key, value, name, other);
    }
  }

  predicate SameNames(h: Heap, h': Heap, a: seq<Id>, b: seq<Id>)
    requires AllIn(h, a) && AllIn(h', b) && |a| == |b|
  {
    forall j :: 0 <= j < |a| / 2 ==> h'[b[2 * j]].value == h[a[2 * j]].value
  }

  lemma SameIndex(h: Heap, h': Heap, a: seq<Id>, b: seq<Id>, key: string)
    requires AllIn(h, a) && AllIn(h', b) && |a| == |b| && SameNames(h, h', a, b)
    ensures PairIndex(h', b, key, 0) == PairIndex(h, a, key, 0)
  {
    FoundAt(h', b, key, PairIndex(h, a, key, 0));
  }

  lemma ReplacedNames(h: Heap, h': Heap, before: seq<Id>, value: Id, k: nat)
    requires AllIn(h, before) && AllIn(h', before) && value in h' && k < |before| / 2
    requires Unrenamed(h, h', before)
    ensures AllIn(h', before[2 * k + 1 := value]) && SameNames(h, h', before, before[2 * k + 1 := value])
    ensures forall j :: 0 <= j < |before| / 2 ==> before[2 * k + 1 := value][2 * j + 1] == if j == k then value
              else before[2 * j + 1]
  {
    var at := 2 * k + 1;
    forall j | 0 <= j < |before| / 2
      ensures before[at := value][2 * j] == before[2 * j]
    {
      assert 2 * j != at;
    }
  }

  lemma ReplacedKeepsOthers(h: Heap, h': Heap, before: seq<Id>, key: string, value: Id, other: string)
    requires AllIn(h, before) && AllIn(h', before) && |before| % 2 == 0 && value in h'
    requires Unrenamed(h, h', before)
    requires PairIndex(h, before, key, 0) < |before| / 2
    ensures var after := before[2 * PairIndex(h, before, key, 0) + 1 := value];
            && AllIn(h', after) && ValueOf(h', after, key) == Some(value)
            && (other != key ==> ValueOf(h', after, other) == ValueOf(h, before, other))
  {
    hide PairIndex, SameNames, AllIn, Unrenamed;
    var k := PairIndex(h, before, key, 0);
    ReplacedNames(h, h', before, value, k);
    var after := before[2 * k + 1 := value];
    SameIndex(h, h', before, after, key);
    SameIndex(h, h', before, after, other);
  }

  lemma AppendedKeepsOthers(h: Heap, h': Heap, before: seq<Id>, key: string, value: Id, name: Id, other: string)
    requires AllIn(h, before) && AllIn(h', before) && |before| % 2 == 0 && value in h' && name in h'
             && h'[name].value == key
    requires Unrenamed(h, h', before)
    requires PairIndex(h, before, key, 0) == |before| / 2
    ensures var after := before + [name, value];
            && AllIn(h', after) && ValueOf(h', after, key) == Some(value)
            && (other != key ==> ValueOf(h', after, other) == ValueOf(h, before, other))
  {
    hide PairIndex;
    var k := |before| / 2;
    var after := before + [name, value];
    assert forall j :: 0 <= j < k ==> after[2 * j] == before[2 * j];
    assert after[2 * k] == name;
    FoundAt(h', after, key, k);
    if other != key {
      var o := PairIndex(h, before, other, 0);
      FoundAt(h', after, other, if o < k then o else k + 1);
    }
  }

  lemma {:induction false} MergedFails(h: Heap, out: seq<Entry>, parts: seq<Id>, seen: set<Id>, i: nat)
    requires Closed(h) && AllIn(h, parts) && seen <= h.Keys && i <= |parts|
             && MergedInto(h, out, parts[..i], seen).None?
    ensures MergedInto(h, out, parts, seen).None?
    decreases |parts|
  {
    if i < |parts| {
      assert parts[..|parts| - 1][..i] == parts[..i];
      MergedFails(h, out, parts[..|parts| - 1], seen, i);
    } else {
      assert parts[..i] == parts;
    }
  }

  lemma StillClosed(h: Heap, n: Id, node: Node)
    requires Closed(h) && n in h && AllIn(h, node.content) && !node.kind.Alias?
    ensures Closed(h[n := node]) && AllIn(h[n := node], node.content)
  {
  }

  lemma ValueWithin(h: Heap, content: seq<Id>, key: string)
    requires AllIn(h, content)
    ensures AllIn(h, []) && (ValueOf(h, content, key).Some? ==> ValueOf(h, content, key).value in h)
  {
  }

  lemma AllInMore(h: Heap, h': Heap, ids: seq<Id>)
    requires forall id <- h :: id in h'
    ensures AllIn(h, ids) ==> AllIn(h', ids)
  {
  }

  lemma SameInGrown(h: Heap, h': Heap, content: seq<Id>, key: string)
    requires AllIn(h, content) && AllIn(h', content) && Grown(h, h')
    ensures PairIndex(h', content, key, 0) == PairIndex(h, content, key, 0)
  {
    SameIndex(h, h', content, content, key);
  }

  lemma SameValue(h: Heap, h': Heap, content: seq<Id>, key: string)
    requires AllIn(h, content) && AllIn(h', content) && Unrenamed(h, h', content)
    ensures ValueOf(h', content, key) == ValueOf(h, content, key)
  {
    SameIndex(h, h', content, content, key);
  }
}
