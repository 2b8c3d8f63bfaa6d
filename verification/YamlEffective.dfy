/** The copy that a commit edits has the effective content of the document: every
    chain of keys, read through aliases and merges, leads to the same in both
    (internal/gateway/config_store.go:183-291). */
module YamlEffective {
  import opened YamlMerge
  import opened YamlCopy
  import opened YamlEdit

  /** Node `k` of `c` says what node `n` of `h` says, with every alias replaced. */
  ghost predicate Same(h: Heap, n: Id, c: Heap, k: Id)
    requires Closed(h) && n in h && Closed(c) && k in c
    decreases k
  {
    var m := Resolved(h, n, {});
    && !h[m].kind.Alias? && c[k].kind == h[m].kind && c[k].tag == h[m].tag && c[k].value == h[m].value
    && |c[k].content| == |h[m].content|
    && forall i :: 0 <= i < |c[k].content| ==> c[k].content[i] < k && Same(h, h[m].content[i], c, c[k].content[i])
  }

  /** A key that is written as an alias is spelled like the key it stands for. */
  ghost predicate KeysRead(h: Heap)
    requires Closed(h)
  {
    forall n <- h :: h[n].kind.Mapping? ==> forall i :: 0 <= 2 * i < |h[n].content| - 1 ==>
      ReadsAsIs(h, h[n].content[2 * i])
  }

  predicate ReadsAsIs(h: Heap, key: Id)
    requires Closed(h) && key in h
  {
    var r := Resolved(h, key, {});
    h[r].kind.Alias? || (h[r].value == h[key].value && (h[r].tag == MERGE <==> h[key].tag == MERGE))
  }

  /** The tree that copying lays out is such a node. */
  lemma {:induction false} LaidOutSame(h: Heap, n: Id, t: Tree, c: Heap, k: Id, low: Id)
    requires Closed(h) && n in h && Closed(c) && Mirrors(h, n, t) && Layout(c, k, t, low)
    ensures Same(h, n, c, k)
    decreases t
  {
    var m := Resolved(h, n, {});
    var ids := c[k].content;
    forall i | 0 <= i < |ids|
      ensures ids[i] < k && Same(h, h[m].content[i], c, ids[i])
    {
      ChildLayout(c, ids, t.children, low, i);
      SizesBefore(t.children, i, |t.children|);
      assert t.children[..|t.children|] == t.children;
      LaidOutSame(h, h[m].content[i], t.children[i], c, ids[i], low + SizeAll(t.children[..i]));
    }
  }

  ghost predicate SameEntries(h: Heap, a: seq<Entry>, c: Heap, b: seq<Entry>)
    requires Closed(h) && Closed(c)
  {
    && |a| == |b|
    && forall i :: 0 <= i < |a| ==> SameEntry(h, a[i], c, b[i])
  }

  ghost predicate SameEntry(h: Heap, a: Entry, c: Heap, b: Entry)
    requires Closed(h) && Closed(c)
  {
    a.name == b.name && a.value in h && b.value in c && Same(h, a.value, c, b.value)
  }

  ghost predicate SameIds(h: Heap, xs: seq<Id>, c: Heap, ys: seq<Id>, k: Id)
    requires Closed(h) && Closed(c)
  {
    && |xs| == |ys|
    && forall i :: 0 <= i < |xs| ==> xs[i] in h && ys[i] in c && ys[i] < k && Same(h, xs[i], c, ys[i])
  }

  ghost predicate KeysReadIn(h: Heap, content: seq<Id>)
    requires Closed(h) && AllIn(h, content)
  {
    forall i :: 0 <= 2 * i < |content| - 1 ==> ReadsAsIs(h, content[2 * i])
  }

  lemma {:induction false} SameOwn(h: Heap, xs: seq<Id>, c: Heap, ys: seq<Id>, k: Id, i: nat)
    requires Closed(h) && Closed(c) && SameIds(h, xs, c, ys, k) && AllIn(h, xs) && AllIn(c, ys) && 2 * i <= |xs|
    requires KeysReadIn(h, xs)
    ensures SameEntries(h, Own(h, xs, i), c, Own(c, ys, i))
    ensures SameIds(h, Merges(h, xs, i), c, Merges(c, ys, i), k)
    decreases i
  {
    if i > 0 {
      SameOwn(h, xs, c, ys, k, i - 1);
      assert ReadsAsIs(h, xs[2 * (i - 1)]);
      assert Same(h, xs[2 * i - 2], c, ys[2 * i - 2]) && Same(h, xs[2 * i - 1], c, ys[2 * i - 1]);
      hide Same, Own, Merges;
      OwnUnfold(h, xs, i);
      OwnUnfold(c, ys, i);
    }
  }

  lemma {:induction false} SameNames(h: Heap, a: seq<Entry>, c: Heap, b: seq<Entry>)
    requires Closed(h) && Closed(c) && SameEntries(h, a, c, b)
    ensures Names(a) == Names(b)
  {
    hide Same;
    forall i | 0 <= i < |a|
      ensures a[i].name == b[i].name
    {
      assert SameEntry(h, a[i], c, b[i]);
    }
  }

  lemma {:induction false} AbsorbSame(h: Heap, a: seq<Entry>, more: seq<Entry>, c: Heap, b: seq<Entry>,
                                      more': seq<Entry>)
    requires Closed(h) && Closed(c) && SameEntries(h, a, c, b) && SameEntries(h, more, c, more')
    ensures SameEntries(h, Absorb(a, more), c, Absorb(b, more'))
    decreases |more|
  {
    if more != [] {
      var n := |more| - 1;
      assert SameEntry(h, more[n], c, more'[n]);
      AbsorbSame(h, a, more[..n], c, b, more'[..n]);
      SameNames(h, Absorb(a, more[..n]), c, Absorb(b, more'[..n]));
      assert more[n].name == more'[n].name;
      hide SameEntry, Names;
    }
  }

  lemma {:induction false} AllBelow(h: Heap, n: Id, c: Heap, k: Id)
    requires Closed(h) && n in h && Closed(c) && k in c && Same(h, n, c, k)
    ensures SameIds(h, h[Resolved(h, n, {})].content, c, c[k].content, k)
  {
  }

  lemma SamePartsOf(h: Heap, x: Id, c: Heap, y: Id, k: Id)
    requires Closed(h) && Closed(c) && x in h && y in c && y < k && Same(h, x, c, y)
    requires Readable(h, PartsOf(h, x))
    ensures SameIds(h, PartsOf(h, x), c, PartsOf(c, y), k)
  {
    if h[x].kind.Sequence? {
      AllBelow(h, x, c, y);
    } else {
      assert x in PartsOf(h, x);
      MaterializedMapping(h, x, {});
    }
  }

  lemma SameConcat(h: Heap, xs: seq<Id>, more: seq<Id>, c: Heap, ys: seq<Id>, more': seq<Id>, k: Id)
    requires Closed(h) && Closed(c) && SameIds(h, xs, c, ys, k) && SameIds(h, more, c, more', k)
    ensures SameIds(h, xs + more, c, ys + more', k)
  {
    hide Same;
  }

  ghost predicate Readable(h: Heap, parts: seq<Id>)
    requires Closed(h)
  {
    forall p <- parts :: p in h && Materialized(h, p, {}).Some?
  }

  lemma {:induction false} SameParts(h: Heap, xs: seq<Id>, c: Heap, ys: seq<Id>, k: Id)
    requires Closed(h) && Closed(c) && SameIds(h, xs, c, ys, k) && AllIn(h, xs) && AllIn(c, ys)
    requires Readable(h, Parts(h, xs))
    ensures SameIds(h, Parts(h, xs), c, Parts(c, ys), k)
    decreases |xs|
  {
    if xs != [] {
      var n := |xs| - 1;
      hide Same, Materialized, PartsOf;
      assert Parts(h, xs) == Parts(h, xs[..n]) + PartsOf(h, xs[n]);
      assert Parts(c, ys) == Parts(c, ys[..n]) + PartsOf(c, ys[n]);
      hide Parts;
      SameParts(h, xs[..n], c, ys[..n], k);
      SamePartsOf(h, xs[n], c, ys[n], k);
      SameConcat(h, Parts(h, xs[..n]), PartsOf(h, xs[n]), c, Parts(c, ys[..n]), PartsOf(c, ys[n]), k);
    }
  }

  lemma SameThroughAlias(h: Heap, n: Id, c: Heap, k: Id)
    requires Closed(h) && n in h && Closed(c) && k in c && Same(h, n, c, k) && h[n].kind.Alias?
    ensures Same(h, h[n].target, c, k)
  {
    assert {} + {n} == {n};
    ThroughAlias(h, n);
  }

  lemma SameMapping(h: Heap, n: Id, c: Heap, k: Id)
    requires Closed(h) && n in h && Closed(c) && k in c && Same(h, n, c, k) && KeysRead(h) && h[n].kind.Mapping?
    requires Readable(h, Parts(h, MergeValues(h, n)))
    ensures c[k].kind.Mapping? && SameEntries(h, Explicit(h, n), c, Explicit(c, k))
    ensures SameIds(h, Parts(h, MergeValues(h, n)), c, Parts(c, MergeValues(c, k)), k)
  {
    AllBelow(h, n, c, k);
    assert c[k].kind.Mapping?;
    hide Same, SameIds, SameEntries, Own, Merges, Readable;
    SameOwn(h, h[n].content, c, c[k].content, k, |h[n].content| / 2);
    SameParts(h, MergeValues(h, n), c, MergeValues(c, k), k);
  }

  lemma Entered(h: Heap, n: Id, seen: set<Id>)
    requires Closed(h) && n in h && seen <= h.Keys && Materialized(h, n, seen).Some?
    ensures n !in seen && (h[n].kind.Alias? || h[n].kind.Mapping?)
    ensures h[n].kind.Alias? ==>
              h[n].target in h && Materialized(h, n, seen) == Materialized(h, h[n].target, seen + {n})
  {
    hide MergedInto, Own, Merges, Parts;
  }

  /** Whenever the document's mapping can be read, so can its copy, and it has the
      same entries in the same order, with the same values. */
  lemma {:induction false} CopyHasSameEntries(h: Heap, n: Id, seen: set<Id>, c: Heap, k: Id, seen': set<Id>)
    requires Closed(h) && n in h && Closed(c) && k in c && Same(h, n, c, k) && KeysRead(h)
    requires seen <= h.Keys && seen' <= c.Keys && (forall s <- seen' :: s > k) && Materialized(h, n, seen).Some?
    ensures Materialized(c, k, seen').Some?
    ensures SameEntries(h, Materialized(h, n, seen).value, c, Materialized(c, k, seen').value)
    decreases k, 1 + |h.Keys - seen|, 0
  {
    hide Same, SameIds, SameEntries, KeysRead, Closed, Materialized, MergedInto, Explicit, Parts, MergeValues;
    Entered(h, n, seen);
    Shrinks(h.Keys, seen, n);
    if h[n].kind.Alias? {
      SameThroughAlias(h, n, c, k);
      CopyHasSameEntries(h, h[n].target, seen + {n}, c, k, seen');
    } else {
      MaterializedStep(h, n, seen);
      PartsSucceed(h, Explicit(h, n), Parts(h, MergeValues(h, n)), seen + {n});
      assert Readable(h, Parts(h, MergeValues(h, n)));
      SameMapping(h, n, c, k);
      MaterializedStep(c, k, seen');
      MergedSame(h, Explicit(h, n), Parts(h, MergeValues(h, n)), seen + {n}, c, Explicit(c, k),
                 Parts(c, MergeValues(c, k)), seen' + {k}, k);
    }
  }

  lemma {:induction false} MergedSame(h: Heap, out: seq<Entry>, parts: seq<Id>, seen: set<Id>,
                                      c: Heap, out': seq<Entry>, parts': seq<Id>, seen': set<Id>, k: Id)
    requires Closed(h) && AllIn(h, parts) && Closed(c) && AllIn(c, parts') && KeysRead(h)
    requires seen <= h.Keys && seen' <= c.Keys && (forall s <- seen' :: s >= k)
    requires SameEntries(h, out, c, out') && SameIds(h, parts, c, parts', k) && MergedInto(h, out, parts, seen).Some?
    ensures MergedInto(c, out', parts', seen').Some?
    ensures SameEntries(h, MergedInto(h, out, parts, seen).value, c, MergedInto(c, out', parts', seen').value)
    decreases k, 0, |parts|
  {
    hide Materialized, Absorb, Same, SameEntries;
    if parts != [] {
      var i := |parts| - 1;
      MergedSame(h, out, parts[..i], seen, c, out', parts'[..i], seen', k);
      CopyHasSameEntries(h, parts[i], seen, c, parts'[i], seen');
      AbsorbSame(h, MergedInto(h, out, parts[..i], seen).value, Materialized(h, parts[i], seen).value,
                 c, MergedInto(c, out', parts'[..i], seen').value, Materialized(c, parts'[i], seen').value);
    }
  }

  // Reading along a chain of keys

  datatype Found = Found(value: Id) | Missing | Broken

  function First(entries: seq<Entry>, name: string): Found {
    if entries == [] then Missing
    else if First(entries[..|entries| - 1], name).Found? then First(entries[..|entries| - 1], name)
    else if entries[|entries| - 1].name == name then Found(entries[|entries| - 1].value)
    else Missing
  }

  lemma {:induction false} FirstWithin(h: Heap, entries: seq<Entry>, name: string)
    requires Genuine(h, entries) && First(entries, name).Found?
    ensures First(entries, name).value in h
    decreases |entries|
  {
    if First(entries[..|entries| - 1], name).Found? {
      FirstWithin(h, entries[..|entries| - 1], name);
    }
  }

  lemma {:induction false} SameFirst(h: Heap, a: seq<Entry>, c: Heap, b: seq<Entry>, name: string)
    requires Closed(h) && Closed(c) && SameEntries(h, a, c, b)
    ensures First(a, name).Found? <==> First(b, name).Found?
    ensures First(a, name).Found? ==> var x, y := First(a, name).value, First(b, name).value;
              x in h && y in c && Same(h, x, c, y)
    ensures !First(a, name).Broken? && !First(b, name).Broken?
    decreases |a|
  {
    if a != [] {
      var n := |a| - 1;
      assert SameEntry(h, a[n], c, b[n]);
      SameFirst(h, a[..n], c, b[..n], name);
    }
  }

  /** What a chain of keys leads to; it is broken if a mapping on it cannot be read. */
  function Lookup(h: Heap, n: Id, path: seq<string>): (r: Found)
    requires Closed(h) && n in h
    ensures r.Found? ==> r.value in h
    decreases |path|
  {
    if path == [] then Found(n)
    else
      match Materialized(h, n, {})
      case None => Broken
      case Some(entries) =>
        match First(entries, path[0])
        case Found(v) =>
          MaterializedGenuine(h, n, {});
          FirstWithin(h, entries, path[0]);
          Lookup(h, v, path[1..])
        case Missing => Missing
        case Broken => Broken
  }

  lemma {:induction false} SameLookup(h: Heap, n: Id, c: Heap, k: Id, path: seq<string>)
    requires Closed(h) && n in h && Closed(c) && k in c && Same(h, n, c, k) && KeysRead(h)
    requires !Lookup(h, n, path).Broken?
    ensures Lookup(c, k, path).Missing? <==> Lookup(h, n, path).Missing?
    ensures Lookup(c, k, path).Found? <==> Lookup(h, n, path).Found?
    ensures Lookup(h, n, path).Found? ==> Same(h, Lookup(h, n, path).value, c, Lookup(c, k, path).value)
    decreases |path|
  {
    hide Same, Materialized, SameEntries, Genuine;
    if path != [] {
      CopyHasSameEntries(h, n, {}, c, k, {});
      var a, b := Materialized(h, n, {}).value, Materialized(c, k, {}).value;
      SameFirst(h, a, c, b, path[0]);
      if First(a, path[0]).Found? {
        SameLookup(h, First(a, path[0]).value, c, First(b, path[0]).value, path[1..]);
      }
    }
  }

  lemma CopiedLeaf(h: Heap, n: Id, active: set<Id>)
    requires Closed(h) && n in h && !h[n].kind.Alias? && h[n].content == [] && active <= h.Keys && n !in active
    ensures Copied(h, n, active) == Some(Tree(h[n].kind, h[n].tag, h[n].value, h[n].anchor, []))
  {
  }

  lemma CopiedAlias(h: Heap, n: Id, active: set<Id>)
    requires Closed(h) && n in h && h[n].kind.Alias? && active <= h.Keys && n !in active
    requires Copied(h, h[n].target, active + {n}).Some?
    ensures Copied(h, n, active) == Some(Copied(h, h[n].target, active + {n}).value.(anchor := ""))
  {
  }

  lemma CopiedPair(h: Heap, n: Id, one: Id, two: Id)
    requires Closed(h) && n in h && !h[n].kind.Alias? && h[n].content == [one, two]
    requires one in h && two in h && Copied(h, one, {n}).Some? && Copied(h, two, {n}).Some?
    ensures Copied(h, n, {}).Some? && Copied(h, n, {}).value.children == [Copied(h, one, {n}).value,
                                                                          Copied(h, two, {n}).value]
  {
    assert {} + {n} == {n};
    CopiedTwo(h, one, two, {n});
    hide CopiedAll;
  }

  lemma CopiedTwo(h: Heap, one: Id, two: Id, active: set<Id>)
    requires Closed(h) && one in h && two in h && active <= h.Keys
    requires Copied(h, one, active).Some? && Copied(h, two, active).Some?
    ensures CopiedAll(h, [one, two], active) == Some([Copied(h, one, active).value, Copied(h, two, active).value])
  {
    CopiedPush(h, [one, two], 0, active);
    CopiedPush(h, [one, two], 1, active);
    assert [one, two][..1] == [one] && [one, two][..2] == [one, two];
    hide *;
    assert [] + [Copied(h, one, active).value] + [Copied(h, two, active).value] == [Copied(h, one, active).value,
        Copied(h, two, active).value];
  }
}
