/** Reading single keys of mappings, spelled out or not, and reading below the nodes of
    a copied document (internal/gateway/config_store.go:164-291). */
module YamlFlow {
  import opened YamlMerge
  import opened YamlCopy
  import opened YamlEdit
  import opened YamlEffective
  import opened YamlMergeKeys

  // What one key leads to

  function AsFound(value: Option<Id>): Found {
    match value
    case None => Missing
    case Some(v) => Found(v)
  }

  /** The effective value of a key, or Broken if the mapping cannot be read. */
  function Reads(h: Heap, n: Id, key: string): (r: Found)
    requires Closed(h) && n in h
    ensures r.Found? ==> r.value in h
  {
    match Materialized(h, n, {})
    case None => Broken
    case Some(entries) =>
      MaterializedGenuine(h, n, {});
      if First(entries, key).Found? then FirstWithin(h, entries, key); First(entries, key) else Missing
  }

  lemma NeverBroken(entries: seq<Entry>, key: string)
    ensures !First(entries, key).Broken?
  {
  }

  lemma LookupStep(h: Heap, n: Id, path: seq<string>)
    requires Closed(h) && n in h && path != []
    ensures var r := Reads(h, n, path[0]); Lookup(h, n, path) == if r.Found? then Lookup(h, r.value, path[1..]) else r
  {
    hide Materialized, Genuine, First;
    if Materialized(h, n, {}).Some? {
      NeverBroken(Materialized(h, n, {}).value, path[0]);
    }
  }

  /** The entries before `k` have other names, and so the first one of this name is there. */
  lemma {:induction false} FirstAt(entries: seq<Entry>, key: string, k: nat)
    requires k <= |entries| && (forall j :: 0 <= j < k ==> entries[j].name != key)
             && (k < |entries| ==> entries[k].name == key)
    ensures First(entries, key) == if k < |entries| then Found(entries[k].value) else Missing
    decreases |entries|
  {
    if entries != [] {
      FirstAt(entries[..|entries| - 1], key, if k < |entries| then (if k < |entries| - 1 then k else |entries| - 1)
              else |entries| - 1);
    }
  }

  lemma {:induction false} UnmergedOwn(h: Heap, content: seq<Id>, i: nat)
    requires AllIn(h, content) && NoMergeKeys(h, content) && 2 * i <= |content|
    ensures Merges(h, content, i) == [] && |Own(h, content, i)| == i
    ensures forall j :: 0 <= j < i ==> Own(h, content, i)[j] == PairAt(h, content, j)
    decreases i
  {
    if i > 0 {
      UnmergedOwn(h, content, i - 1);
      assert h[content[2 * (i - 1)]].tag != MERGE;
    }
  }

  /** A mapping without merges: what it says is what its pairs say. */
  predicate Plain(h: Heap, n: Id) {
    n in h && h[n].kind.Mapping? && AllIn(h, h[n].content) && NoMergeKeys(h, h[n].content) && |h[n].content| % 2 == 0
  }

  lemma PlainReads(h: Heap, n: Id, key: string)
    requires Closed(h) && Plain(h, n)
    ensures Materialized(h, n, {}) == Some(Explicit(h, n)) && MergeValues(h, n) == []
    ensures Reads(h, n, key) == AsFound(ValueOf(h, h[n].content, key))
  {
    hide Materialized, Own, Merges, First, PairIndex, ValueOf, Genuine;
    var content := h[n].content;
    UnmergedOwn(h, content, |content| / 2);
    assert MergeValues(h, n) == [];
    YamlMergeKeys.Plain(h, n, {});
    PlainFirst(h, content, key);
    NeverBroken(Explicit(h, n), key);
  }

  lemma PlainFirst(h: Heap, content: seq<Id>, key: string)
    requires AllIn(h, content) && NoMergeKeys(h, content)
    ensures First(Own(h, content, |content| / 2), key) == AsFound(ValueOf(h, content, key))
  {
    hide First, Own;
    var k := PairIndex(h, content, key, 0);
    UnmergedOwn(h, content, |content| / 2);
    FirstAt(Own(h, content, |content| / 2), key, k);
  }

  /** Spelling out a mapping changes nothing that it says. */
  lemma FlatReads(h: Heap, n: Id, key: string)
    requires Closed(h) && n in h && Materialized(h, n, {}).Some?
    ensures var flat := Flat(Materialized(h, n, {}).value);
            AllIn(h, flat) && AsFound(ValueOf(h, flat, key)) == Reads(h, n, key)
  {
    hide Materialized, Genuine;
    var entries := Materialized(h, n, {}).value;
    MaterializedGenuine(h, n, {});
    FlatUnmerged(h, entries);
    FlatFirst(h, entries, key);
    NeverBroken(entries, key);
  }

  lemma FlatFirst(h: Heap, entries: seq<Entry>, key: string)
    requires Genuine(h, entries) && AllIn(h, Flat(entries))
    ensures AsFound(ValueOf(h, Flat(entries), key)) == First(entries, key)
  {
    var flat := Flat(entries);
    var k := PairIndex(h, flat, key, 0);
    forall j | 0 <= j < |entries|
      ensures entries[j].name == h[flat[2 * j]].value
    {
      assert flat[2 * j] == entries[j].key;
    }
    assert |flat| / 2 == |entries|;
    FirstAt(entries, key, k);
    if k < |entries| {
      assert flat[2 * k + 1] == entries[k].value;
    }
    hide Flat;
  }

  // A copy is a tree: every node lies above what it contains

  ghost predicate Descends(c: Heap, a: Id)
    decreases a
  {
    a in c && !c[a].kind.Alias? && forall i :: 0 <= i < |c[a].content| ==>
      c[a].content[i] < a && Descends(c, c[a].content[i])
  }

  lemma {:induction false} SameDescends(h: Heap, n: Id, c: Heap, k: Id)
    requires Closed(h) && n in h && Closed(c) && k in c && Same(h, n, c, k)
    ensures Descends(c, k)
    decreases k
  {
    var m := Resolved(h, n, {});
    forall i | 0 <= i < |c[k].content|
      ensures c[k].content[i] < k && Descends(c, c[k].content[i])
    {
      SameDescends(h, h[m].content[i], c, c[k].content[i]);
    }
  }

  ghost predicate AllDescend(c: Heap, ids: seq<Id>, bound: Id) {
    forall i :: 0 <= i < |ids| ==> ids[i] < bound && Descends(c, ids[i])
  }

  lemma {:induction false} MergesDescend(c: Heap, content: seq<Id>, i: nat, bound: Id)
    requires AllIn(c, content) && AllDescend(c, content, bound) && 2 * i <= |content|
    ensures AllDescend(c, Merges(c, content, i), bound)
    decreases i
  {
    hide Descends;
    if i > 0 {
      MergesDescend(c, content, i - 1, bound);
    }
  }

  lemma {:induction false} PartsDescend(c: Heap, merges: seq<Id>, bound: Id)
    requires AllIn(c, merges) && AllDescend(c, merges, bound)
    ensures AllDescend(c, Parts(c, merges), bound)
    decreases |merges|
  {
    if merges != [] {
      PartsDescend(c, merges[..|merges| - 1], bound);
    }
  }

  /** The values of these entries lie below, and so do what they contain. */
  ghost predicate EntriesDescend(c: Heap, entries: seq<Entry>, bound: Id) {
    forall i :: 0 <= i < |entries| ==> entries[i].value < bound && Descends(c, entries[i].value)
  }

  lemma {:induction false} OwnDescend(c: Heap, content: seq<Id>, i: nat, bound: Id)
    requires AllIn(c, content) && AllDescend(c, content, bound) && 2 * i <= |content|
    ensures EntriesDescend(c, Own(c, content, i), bound)
    decreases i
  {
    hide Descends;
    if i > 0 {
      OwnDescend(c, content, i - 1, bound);
    }
  }

  lemma {:induction false} AbsorbDescend(c: Heap, out: seq<Entry>, more: seq<Entry>, bound: Id)
    requires EntriesDescend(c, out, bound) && EntriesDescend(c, more, bound)
    ensures EntriesDescend(c, Absorb(out, more), bound)
    decreases |more|
  {
    hide Descends;
    if more != [] {
      AbsorbDescend(c, out, more[..|more| - 1], bound);
    }
  }

  lemma MappingParts(c: Heap, a: Id)
    requires Closed(c) && Descends(c, a) && c[a].kind.Mapping?
    ensures AllIn(c, Parts(c, MergeValues(c, a))) && AllDescend(c, Parts(c, MergeValues(c, a)), a)
    ensures EntriesDescend(c, Explicit(c, a), a)
  {
    var content := c[a].content;
    assert AllDescend(c, content, a);
    hide Descends, Own, Merges, Parts;
    OwnDescend(c, content, |content| / 2, a);
    MergesDescend(c, content, |content| / 2, a);
    PartsDescend(c, MergeValues(c, a), a);
    PartsIn(c, MergeValues(c, a));
  }

  lemma {:induction false} ValuesDescend(c: Heap, a: Id, seen: set<Id>)
    requires Closed(c) && Descends(c, a) && seen <= c.Keys && Materialized(c, a, seen).Some?
    ensures EntriesDescend(c, Materialized(c, a, seen).value, a)
    decreases a, 1, 0
  {
    YamlMergeKeys.Readable(c, a, seen);
    NoAlias(c, a);
    hide Descends, Materialized, EntriesDescend, Explicit, MergeValues, Parts;
    MaterializedStep(c, a, seen);
    MappingParts(c, a);
    MergedDescend(c, Explicit(c, a), Parts(c, MergeValues(c, a)), seen + {a}, a);
  }

  lemma NoAlias(c: Heap, a: Id)
    requires Descends(c, a)
    ensures a in c && !c[a].kind.Alias?
  {
  }

  lemma {:induction false} MergedDescend(c: Heap, out: seq<Entry>, parts: seq<Id>, seen: set<Id>, bound: Id)
    requires Closed(c) && AllIn(c, parts) && AllDescend(c, parts, bound) && EntriesDescend(c, out, bound)
             && seen <= c.Keys
    requires MergedInto(c, out, parts, seen).Some?
    ensures EntriesDescend(c, MergedInto(c, out, parts, seen).value, bound)
    decreases bound, 0, |parts|
  {
    hide Descends, Materialized, Absorb;
    if parts != [] {
      var front, last := parts[..|parts| - 1], parts[|parts| - 1];
      MergedDescend(c, out, front, seen, bound);
      ValuesDescend(c, last, seen);
      AbsorbDescend(c, MergedInto(c, out, front, seen).value, Materialized(c, last, seen).value, bound);
    }
  }

  // A heap that agrees with the copy below a node reads alike there

  predicate AgreeBelow(c: Heap, f: Heap, a: Id) {
    forall id <- c :: id <= a ==> id in f && f[id] == c[id]
  }

  lemma Narrower(c: Heap, f: Heap, a: Id, b: Id)
    requires AgreeBelow(c, f, a) && b <= a
    ensures AgreeBelow(c, f, b)
  {
  }

  lemma {:induction false} AgreePairs(c: Heap, f: Heap, content: seq<Id>, i: nat, bound: Id)
    requires AllIn(c, content) && AllDescend(c, content, bound) && AgreeBelow(c, f, bound) && 2 * i <= |content|
    ensures AllIn(f, content) && Own(f, content, i) == Own(c, content, i)
            && Merges(f, content, i) == Merges(c, content, i)
    decreases i
  {
    hide Descends;
    if i > 0 {
      AgreePairs(c, f, content, i - 1, bound);
    }
  }

  lemma {:induction false} AgreeParts(c: Heap, f: Heap, merges: seq<Id>, bound: Id)
    requires AllIn(c, merges) && AllIn(f, merges) && AllDescend(c, merges, bound) && AgreeBelow(c, f, bound)
    ensures Parts(f, merges) == Parts(c, merges)
    decreases |merges|
  {
    hide Descends;
    if merges != [] {
      AgreeParts(c, f, merges[..|merges| - 1], bound);
    }
  }

  lemma AgreeMapping(c: Heap, f: Heap, a: Id)
    requires Closed(c) && Closed(f) && Descends(c, a) && c[a].kind.Mapping? && AgreeBelow(c, f, a)
    ensures a in f && f[a] == c[a] && Explicit(f, a) == Explicit(c, a)
    ensures Parts(f, MergeValues(f, a)) == Parts(c, MergeValues(c, a)) && AllIn(f, Parts(c, MergeValues(c, a)))
  {
    var content := c[a].content;
    assert AllDescend(c, content, a);
    PartsIn(f, MergeValues(f, a));
    hide Descends, Own, Merges, Parts;
    AgreePairs(c, f, content, |content| / 2, a);
    MergesDescend(c, content, |content| / 2, a);
    AgreeParts(c, f, MergeValues(c, a), a);
  }

  lemma {:induction false} AgreeReads(c: Heap, f: Heap, a: Id, seen: set<Id>, seen': set<Id>)
    requires Closed(c) && Closed(f) && Descends(c, a) && AgreeBelow(c, f, a)
    requires seen <= c.Keys && seen' <= f.Keys && (forall s <- seen :: s > a) && (forall s <- seen' :: s > a)
    ensures a in f && Materialized(f, a, seen') == Materialized(c, a, seen)
    decreases a, 1, 0
  {
    NoAlias(c, a);
    hide Descends, Explicit, MergeValues, Parts, MergedInto;
    if c[a].kind.Mapping? {
      AgreeMapping(c, f, a);
      MaterializedStep(c, a, seen);
      MaterializedStep(f, a, seen');
      MappingParts(c, a);
      AgreeMerged(c, f, Explicit(c, a), Parts(c, MergeValues(c, a)), seen + {a}, seen' + {a}, a);
    }
  }

  lemma {:induction false} AgreeMerged(c: Heap, f: Heap, out: seq<Entry>, parts: seq<Id>, seen: set<Id>,
                                       seen': set<Id>, bound: Id)
    requires Closed(c) && Closed(f) && AllIn(c, parts) && AllIn(f, parts) && AllDescend(c, parts, bound)
             && AgreeBelow(c, f, bound)
    requires seen <= c.Keys && seen' <= f.Keys && (forall s <- seen :: s >= bound) && (forall s <- seen' :: s >= bound)
    ensures MergedInto(f, out, parts, seen') == MergedInto(c, out, parts, seen)
    decreases bound, 0, |parts|
  {
    hide Descends, Materialized, Absorb;
    if parts != [] {
      var front, last := parts[..|parts| - 1], parts[|parts| - 1];
      AgreeMerged(c, f, out, front, seen, seen', bound);
      Narrower(c, f, bound, last);
      AgreeReads(c, f, last, seen, seen');
    }
  }

  /** What a key of a mapping of the copy leads to lies below it. */
  lemma ReadsBelow(c: Heap, a: Id, key: string)
    requires Closed(c) && Descends(c, a)
    ensures Reads(c, a, key).Found? ==> Reads(c, a, key).value < a && Descends(c, Reads(c, a, key).value)
  {
    hide Descends, Materialized, Genuine;
    NoAlias(c, a);
    if Materialized(c, a, {}).Some? {
      ValuesDescend(c, a, {});
      if First(Materialized(c, a, {}).value, key).Found? {
        FirstDescends(c, Materialized(c, a, {}).value, key, a);
      }
    }
  }

  lemma {:induction false} FirstDescends(c: Heap, entries: seq<Entry>, key: string, bound: Id)
    requires EntriesDescend(c, entries, bound) && First(entries, key).Found?
    ensures First(entries, key).value < bound && Descends(c, First(entries, key).value)
    decreases |entries|
  {
    hide Descends;
    if First(entries[..|entries| - 1], key).Found? {
      FirstDescends(c, entries[..|entries| - 1], key, bound);
    }
  }

  lemma AgreeValue(c: Heap, f: Heap, a: Id, key: string)
    requires Closed(c) && Closed(f) && Descends(c, a) && AgreeBelow(c, f, a)
    ensures a in f && Reads(f, a, key) == Reads(c, a, key)
  {
    hide Descends, Materialized, Genuine;
    AgreeReads(c, f, a, {}, {});
  }

  lemma {:induction false} AgreeLookup(c: Heap, f: Heap, a: Id, path: seq<string>)
    requires Closed(c) && Closed(f) && Descends(c, a) && AgreeBelow(c, f, a)
    ensures a in f && Lookup(f, a, path) == Lookup(c, a, path)
    ensures Lookup(c, a, path).Found? ==> Lookup(c, a, path).value <= a && Descends(c, Lookup(c, a, path).value)
    decreases |path|
  {
    hide Descends, Reads, Materialized, AgreeBelow;
    NoAlias(c, a);
    AgreeValue(c, f, a, "");
    if path != [] {
      AgreeValue(c, f, a, path[0]);
      LookupStep(c, a, path);
      LookupStep(f, a, path);
      var r := Reads(c, a, path[0]);
      ReadsBelow(c, a, path[0]);
      if r.Found? {
        Narrower(c, f, a, r.value);
        AgreeLookup(c, f, r.value, path[1..]);
      }
    }
  }

  lemma {:induction false} AgreeSame(h: Heap, n: Id, c: Heap, f: Heap, k: Id)
    requires Closed(h) && n in h && Closed(c) && Closed(f) && k in c && Same(h, n, c, k) && AgreeBelow(c, f, k)
    ensures k in f && Same(h, n, f, k)
    decreases k
  {
    var m := Resolved(h, n, {});
    forall i | 0 <= i < |c[k].content|
      ensures Same(h, h[m].content[i], f, c[k].content[i])
    {
      Narrower(c, f, k, c[k].content[i]);
      AgreeSame(h, h[m].content[i], c, f, c[k].content[i]);
    }
  }
}
