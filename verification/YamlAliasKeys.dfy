/** What copying a document does to keys that are written as aliases
    (internal/gateway/config_store.go:183-291). */
module YamlAliasKeys {
  import opened YamlMerge
  import opened YamlCopy
  import opened YamlEdit
  import opened YamlEffective
  import opened YamlMergeKeys

  // The document with its alias keys spelled out

  /** Every alias takes the label of what it stands for. */
  function Spelled(h: Heap): Heap
    requires Closed(h)
  {
    map n <- h :: var r := Resolved(h, n, {});
      if h[n].kind.Alias? && !h[r].kind.Alias? then h[n].(value := h[r].value, tag := h[r].tag) else h[n]
  }

  lemma SpelledShape(h: Heap)
    requires Closed(h)
    ensures Closed(Spelled(h)) && Spelled(h).Keys == h.Keys
    ensures forall n <- h ::
              var s := Spelled(h)[n];
                s.kind == h[n].kind && s.target == h[n].target && s.content == h[n].content
                && (!s.kind.Alias? ==> s == h[n])
  {
    hide Resolved;
  }

  lemma SpelledReads(h: Heap)
    requires Closed(h)
    ensures Closed(Spelled(h)) && KeysRead(Spelled(h))
  {
    SpelledShape(h);
    var s := Spelled(h);
    forall n | n in s
      ensures ReadsAsIs(s, n)
    {
      SameResolved(h, s, n, {});
    }
  }

  lemma {:induction false} SameAsSpelled(h: Heap, n: Id, c: Heap, k: Id)
    requires Closed(h) && n in h && Closed(c) && k in c && Same(h, n, c, k)
    ensures Closed(Spelled(h)) && Same(Spelled(h), n, c, k)
    decreases k
  {
    SpelledShape(h);
    SameResolved(h, Spelled(h), n, {});
    hide Spelled, Resolved;
    var m := Resolved(h, n, {});
    forall i | 0 <= i < |c[k].content|
      ensures Same(Spelled(h), h[m].content[i], c, c[k].content[i])
    {
      SameAsSpelled(h, h[m].content[i], c, c[k].content[i]);
    }
  }

  /** What the copy says is what the document says with its alias keys spelled out: it
      has the same entries, in the same order, with the same values. */
  lemma CopyReadsSpelled(h: Heap, n: Id, c: Heap, k: Id)
    requires Closed(h) && n in h && Closed(c) && k in c && Same(h, n, c, k)
    requires Closed(Spelled(h)) && n in Spelled(h) && Materialized(Spelled(h), n, {}).Some?
    ensures Materialized(c, k, {}).Some?
    ensures SameEntries(Spelled(h), Materialized(Spelled(h), n, {}).value, c, Materialized(c, k, {}).value)
  {
    SpelledReads(h);
    SameAsSpelled(h, n, c, k);
    CopyHasSameEntries(Spelled(h), n, {}, c, k, {});
  }

  /** For every chain of keys that can be read with the alias keys spelled out, the copy
      that CopyConfiguration returns has the same value, or misses it as well. */
  lemma CopyReadsTheSame(h: Heap, n: Id, t: Tree, c: Heap, k: Id, low: Id, path: seq<string>)
    requires Closed(h) && n in h && Closed(c) && Mirrors(h, n, t) && Layout(c, k, t, low)
    requires Closed(Spelled(h)) && n in Spelled(h) && !Lookup(Spelled(h), n, path).Broken?
    ensures Lookup(c, k, path).Missing? <==> Lookup(Spelled(h), n, path).Missing?
    ensures Lookup(c, k, path).Found? <==> Lookup(Spelled(h), n, path).Found?
    ensures Lookup(c, k, path).Found? ==> Same(Spelled(h), Lookup(Spelled(h), n, path).value, c,
                                               Lookup(c, k, path).value)
  {
    LaidOutSame(h, n, t, c, k, low);
    SameAsSpelled(h, n, c, k);
    SpelledReads(h);
    hide *;
    SameLookup(Spelled(h), n, c, k, path);
  }

  // When that is what the document says as it is

  /** No alias is, or stands for, a merge key unless it is both. */
  predicate RolesKept(h: Heap)
    requires Closed(h)
  {
    forall n <- h :: Spelled(h)[n].tag == MERGE <==> h[n].tag == MERGE
  }

  function Renamed(s: Heap, e: Entry): Entry
    requires e.key in s
  {
    Entry(s[e.key].value, e.key, e.value)
  }

  function AllRenamed(s: Heap, entries: seq<Entry>): (r: seq<Entry>)
    requires forall e <- entries :: e.key in s
    ensures |r| == |entries| && forall i :: 0 <= i < |r| ==> r[i] == Renamed(s, entries[i])
  {
    seq(|entries|, i requires 0 <= i < |entries| => Renamed(s, entries[i]))
  }

  /** The pairs that reading a node goes through, before repeated names are left out. */
  function Sources(h: Heap, n: Id, seen: set<Id>): seq<Entry>
    requires Closed(h) && n in h && seen <= h.Keys
    decreases |h.Keys - seen|, 0
  {
    if n in seen then []
    else
      Shrinks(h.Keys, seen, n);
      if h[n].kind.Alias? then Sources(h, h[n].target, seen + {n})
      else if !h[n].kind.Mapping? then []
      else
        PartsIn(h, MergeValues(h, n));
        Explicit(h, n) + SourcesAll(h, Parts(h, MergeValues(h, n)), seen + {n})
  }

  function SourcesAll(h: Heap, parts: seq<Id>, seen: set<Id>): seq<Entry>
    requires Closed(h) && AllIn(h, parts) && seen <= h.Keys
    decreases |h.Keys - seen|, |parts| + 1
  {
    if parts == [] then [] else SourcesAll(h, parts[..|parts| - 1], seen) + Sources(h, parts[|parts| - 1], seen)
  }

  lemma SourcesStep(h: Heap, n: Id, seen: set<Id>)
    requires Closed(h) && n in h && seen <= h.Keys && n !in seen
    ensures h[n].kind.Alias? ==> h[n].target in h && Sources(h, n, seen) == Sources(h, h[n].target, seen + {n})
    ensures h[n].kind.Mapping? ==>
              AllIn(h, Parts(h, MergeValues(h, n))) && Sources(h, n, seen) == Explicit(h, n) + SourcesAll(h,
                  Parts(h, MergeValues(h, n)), seen + {n})
  {
    hide Explicit, MergeValues, Parts, SourcesAll;
    Shrinks(h.Keys, seen, n);
    PartsIn(h, MergeValues(h, n));
  }

  /** Leaving out repeated names at once is leaving them out on the way. */
  lemma {:induction false} SourcesMeaning(h: Heap, n: Id, seen: set<Id>, out: seq<Entry>)
    requires Closed(h) && n in h && seen <= h.Keys && Materialized(h, n, seen).Some?
    ensures Absorb(out, Materialized(h, n, seen).value) == Absorb(out, Sources(h, n, seen))
    decreases |h.Keys - seen|, 0
  {
    hide Absorb, Materialized, Sources, SourcesAll, Explicit, MergeValues, Parts, MergedInto;
    YamlMergeKeys.Readable(h, n, seen);
    Shrinks(h.Keys, seen, n);
    SourcesStep(h, n, seen);
    if h[n].kind.Alias? {
      SourcesMeaning(h, h[n].target, seen + {n}, out);
    } else {
      var own, parts := Explicit(h, n), Parts(h, MergeValues(h, n));
      MaterializedStep(h, n, seen);
      MergedMeaning(h, own, parts, seen + {n});
      AbsorbAssociative(out, own, SourcesAll(h, parts, seen + {n}));
      AbsorbConcat(out, own, SourcesAll(h, parts, seen + {n}));
    }
  }

  lemma {:induction false} MergedMeaning(h: Heap, out: seq<Entry>, parts: seq<Id>, seen: set<Id>)
    requires Closed(h) && AllIn(h, parts) && seen <= h.Keys && MergedInto(h, out, parts, seen).Some?
    ensures MergedInto(h, out, parts, seen).value == Absorb(out, SourcesAll(h, parts, seen))
    decreases |h.Keys - seen|, |parts| + 1
  {
    hide Absorb, Materialized, Sources;
    if parts == [] {
      AbsorbEmpty(out);
    } else {
      var front, last := parts[..|parts| - 1], parts[|parts| - 1];
      MergedMeaning(h, out, front, seen);
      SourcesMeaning(h, last, seen, MergedInto(h, out, front, seen).value);
      AbsorbConcat(out, SourcesAll(h, front, seen), Sources(h, last, seen));
    }
  }

  lemma AbsorbEmpty(out: seq<Entry>)
    ensures Absorb(out, []) == out
  {
  }

  // Spelling out keys renames the pairs one by one

  lemma {:induction false} OwnSpelled(h: Heap, s: Heap, content: seq<Id>, i: nat)
    requires AllIn(h, content) && AllIn(s, content) && 2 * i <= |content| && h.Keys == s.Keys
    requires forall n <- h :: s[n].tag == MERGE <==> h[n].tag == MERGE
    ensures Genuine(h, Own(h, content, i)) && Own(s, content, i) == AllRenamed(s, Own(h, content, i))
    ensures Merges(s, content, i) == Merges(h, content, i)
    decreases i
  {
    OwnGenuine(h, content, i);
    if i > 0 {
      OwnSpelled(h, s, content, i - 1);
      OwnUnfold(h, content, i);
      OwnUnfold(s, content, i);
    }
  }

  /** The two heaps differ only in labels, and agree on which keys are merges. */
  predicate Relabelled(h: Heap, s: Heap) {
    && h.Keys == s.Keys
    && (forall n <- h :: s[n].kind == h[n].kind && s[n].target == h[n].target && s[n].content == h[n].content)
    && (forall n <- h :: s[n].tag == MERGE <==> h[n].tag == MERGE)
  }

  lemma ExplicitSpelled(h: Heap, s: Heap, n: Id)
    requires Closed(h) && Closed(s) && Relabelled(h, s) && n in h
    ensures Genuine(h, Explicit(h, n)) && Explicit(s, n) == AllRenamed(s, Explicit(h, n))
            && MergeValues(s, n) == MergeValues(h, n)
  {
    OwnSpelled(h, s, h[n].content, |h[n].content| / 2);
  }

  lemma {:induction false} PartsSpelled(h: Heap, s: Heap, merges: seq<Id>)
    requires Relabelled(h, s) && AllIn(h, merges) && AllIn(s, merges)
    ensures Parts(s, merges) == Parts(h, merges)
    decreases |merges|
  {
    if merges != [] {
      PartsSpelled(h, s, merges[..|merges| - 1]);
    }
  }

  lemma NoSources(h: Heap, n: Id, seen: set<Id>)
    requires Closed(h) && n in h && seen <= h.Keys && (n in seen || (!h[n].kind.Alias? && !h[n].kind.Mapping?))
    ensures Sources(h, n, seen) == [] && Materialized(h, n, seen).None?
  {
  }

  lemma MaterializedAlias(h: Heap, n: Id, seen: set<Id>)
    requires Closed(h) && n in h && seen <= h.Keys && n !in seen && h[n].kind.Alias?
    ensures h[n].target in h && Materialized(h, n, seen) == Materialized(h, h[n].target, seen + {n})
  {
    hide MergedInto, Own, Merges, Parts;
  }

  lemma NothingRenamed(s: Heap)
    ensures Genuine(s, []) && AllRenamed(s, []) == []
  {
  }

  lemma RenamedConcat(h: Heap, s: Heap, a: seq<Entry>, b: seq<Entry>)
    requires Genuine(h, a) && Genuine(h, b) && h.Keys == s.Keys
    ensures Genuine(h, a + b) && AllRenamed(s, a + b) == AllRenamed(s, a) + AllRenamed(s, b)
  {
  }

  lemma {:induction false} SourcesSpelled(h: Heap, s: Heap, n: Id, seen: set<Id>)
    requires Closed(h) && Closed(s) && Relabelled(h, s) && n in h && seen <= h.Keys
    ensures Genuine(h, Sources(h, n, seen)) && Sources(s, n, seen) == AllRenamed(s, Sources(h, n, seen))
    ensures Materialized(s, n, seen).Some? <==> Materialized(h, n, seen).Some?
    decreases |h.Keys - seen|, 0
  {
    hide Explicit, MergeValues, Sources, SourcesAll, MergedInto, Parts, Materialized, Genuine, AllRenamed;
    NothingRenamed(h);
    NothingRenamed(s);
    if n in seen || (!h[n].kind.Alias? && !h[n].kind.Mapping?) {
      NoSources(h, n, seen);
      NoSources(s, n, seen);
    } else {
      Shrinks(h.Keys, seen, n);
      SourcesStep(h, n, seen);
      SourcesStep(s, n, seen);
      if h[n].kind.Alias? {
        MaterializedAlias(h, n, seen);
        MaterializedAlias(s, n, seen);
        SourcesSpelled(h, s, h[n].target, seen + {n});
      } else {
        MaterializedStep(h, n, seen);
        MaterializedStep(s, n, seen);
        ExplicitSpelled(h, s, n);
        PartsSpelled(h, s, MergeValues(h, n));
        AllSourcesSpelled(h, s, Parts(h, MergeValues(h, n)), seen + {n}, Explicit(h, n), Explicit(s, n));
        RenamedConcat(h, s, Explicit(h, n), SourcesAll(h, Parts(h, MergeValues(h, n)), seen + {n}));
      }
    }
  }

  lemma {:induction false} AllSourcesSpelled(h: Heap, s: Heap, parts: seq<Id>, seen: set<Id>, out: seq<Entry>,
                                             out': seq<Entry>)
    requires Closed(h) && Closed(s) && Relabelled(h, s) && AllIn(h, parts) && AllIn(s, parts) && seen <= h.Keys
    ensures Genuine(h, SourcesAll(h, parts, seen))
            && SourcesAll(s, parts, seen) == AllRenamed(s, SourcesAll(h, parts, seen))
    ensures MergedInto(s, out', parts, seen).Some? <==> MergedInto(h, out, parts, seen).Some?
    decreases |h.Keys - seen|, |parts| + 1
  {
    hide Sources, Materialized, Relabelled, Genuine, AllRenamed, Closed;
    SameDomain(h, s);
    if parts == [] {
      NothingRenamed(h);
      NothingRenamed(s);
    } else {
      AllSourcesSpelled(h, s, parts[..|parts| - 1], seen, out, out');
      SourcesSpelled(h, s, parts[|parts| - 1], seen);
      RenamedConcat(h, s, SourcesAll(h, parts[..|parts| - 1], seen), Sources(h, parts[|parts| - 1], seen));
    }
  }

  lemma SameDomain(h: Heap, s: Heap)
    requires Relabelled(h, s)
    ensures h.Keys == s.Keys
  {
  }

  // Which renamings leave the entries as they are

  lemma {:induction false} AbsorbedFrom(out: seq<Entry>, more: seq<Entry>, e: Entry)
    requires e in Absorb(out, more)
    ensures e in out || e in more
    decreases |more|
  {
    if more != [] {
      var front := more[..|more| - 1];
      if e in Absorb(out, front) {
        AbsorbedFrom(out, front, e);
      }
    }
  }

  /** A pair that counts keeps its name, and one that is shadowed is still shadowed. */
  predicate Harmless(s: Heap, out: seq<Entry>, more: seq<Entry>)
    requires forall e <- more :: e.key in s
  {
    forall i :: 0 <= i < |more| ==> HarmlessAt(s, Absorb(out, more[..i]), more[i])
  }

  predicate HarmlessAt(s: Heap, before: seq<Entry>, e: Entry)
    requires e.key in s
  {
    if e.name in Names(before) then s[e.key].value in Names(before) else s[e.key].value == e.name
  }

  lemma HarmlessStep(s: Heap, out: seq<Entry>, more: seq<Entry>)
    requires more != [] && forall e <- more :: e.key in s
    ensures var front, e := more[..|more| - 1], more[|more| - 1];
            Harmless(s, out, more) <==> Harmless(s, out, front) && HarmlessAt(s, Absorb(out, front), e)
  {
    hide HarmlessAt, Absorb;
    var front := more[..|more| - 1];
    assert forall i :: 0 <= i < |front| ==> more[..i] == front[..i] && more[i] == front[i];
    assert more[..|front|] == front;
  }

  /** The pair `e` counts in one of the two readings only; then they never meet again. */
  lemma NeverMeets(h: Heap, s: Heap, out: seq<Entry>, more: seq<Entry>, e: Entry)
    requires Genuine(h, out) && Genuine(h, more) && h.Keys == s.Keys && AllRenamed(s, out) == out
    requires e.key in h && h[e.key].value == e.name
    ensures var p, p' := Absorb(out, more), Absorb(out, AllRenamed(s, more));
            && (e.name !in Names(p) ==> p + [e] != p')
            && (s[e.key].value !in Names(p') ==> p != p' + [Renamed(s, e)])
  {
    var p, p' := Absorb(out, more), Absorb(out, AllRenamed(s, more));
    AbsorbNames(out, more);
    AbsorbNames(out, AllRenamed(s, more));
    if p + [e] == p' {
      assert e in p';
      AbsorbedFrom(out, AllRenamed(s, more), e);
      KeyNamed(h, s, out, more, e.key, e);
    }
    if p == p' + [Renamed(s, e)] {
      assert Renamed(s, e) in p;
      AbsorbedFrom(out, more, Renamed(s, e));
      KeyNamed(h, s, out, more, e.key, Renamed(s, e));
    }
  }

  /** A pair with this key is named in both readings, as each of them spells it. */
  lemma KeyNamed(h: Heap, s: Heap, out: seq<Entry>, more: seq<Entry>, key: Id, e: Entry)
    requires Genuine(h, out) && Genuine(h, more) && h.Keys == s.Keys && AllRenamed(s, out) == out && e.key == key
             && key in h
    requires e in out || e in more || e in AllRenamed(s, more)
    ensures h[key].value in Names(out) + Names(more) && s[key].value in Names(out) + Names(AllRenamed(s, more))
  {
    if e in out {
      var i :| 0 <= i < |out| && out[i] == e;
      assert AllRenamed(s, out)[i] == out[i];
    } else {
      var i :| 0 <= i < |more| && more[i].key == key;
      assert AllRenamed(s, more)[i].name == s[key].value;
    }
  }

  lemma RenamedLast(h: Heap, s: Heap, more: seq<Entry>)
    requires Genuine(h, more) && h.Keys == s.Keys && more != []
    ensures var front, e, renamed := more[..|more| - 1], more[|more| - 1], AllRenamed(s, more);
            && Genuine(h, front) && e.key in h && h[e.key].value == e.name && renamed != []
            && renamed[..|renamed| - 1] == AllRenamed(s, front) && renamed[|renamed| - 1] == Renamed(s, e)
  {
  }

  lemma Keys(h: Heap, more: seq<Entry>)
    requires Genuine(h, more)
    ensures forall e <- more :: e.key in h
  {
  }

  lemma {:induction false} RenamingExactly(h: Heap, s: Heap, out: seq<Entry>, more: seq<Entry>)
    requires Genuine(h, out) && Genuine(h, more) && h.Keys == s.Keys && AllRenamed(s, out) == out
    ensures (forall e <- more :: e.key in s)
    ensures Absorb(out, AllRenamed(s, more)) == Absorb(out, more) <==> Harmless(s, out, more)
    decreases |more|
  {
    hide Genuine, AllRenamed, Harmless, Absorb, Names;
    Keys(h, more);
    if more == [] {
      NothingRenamed(s);
      NothingHarmed(s, out);
    } else {
      var front, e := more[..|more| - 1], more[|more| - 1];
      RenamedLast(h, s, more);
      RenamingExactly(h, s, out, front);
      HarmlessStep(s, out, more);
      NeverMeets(h, s, out, front, e);
      AbsorbLast(out, more);
      AbsorbLast(out, AllRenamed(s, more));
      SamePush(Absorb(out, front), e, Absorb(out, AllRenamed(s, front)), Renamed(s, e));
    }
  }

  lemma SamePush(a: seq<Entry>, x: Entry, b: seq<Entry>, y: Entry)
    ensures a + [x] == b + [y] <==> a == b && x == y
    ensures a != a + [x]
  {
    if a + [x] == b + [y] {
      assert (a + [x])[..|a|] == a && (b + [y])[..|b|] == b;
      assert (a + [x])[|a|] == x && (b + [y])[|b|] == y;
    }
  }

  lemma NothingHarmed(s: Heap, out: seq<Entry>)
    ensures Harmless(s, out, [])
  {
  }

  lemma AbsorbLast(out: seq<Entry>, more: seq<Entry>)
    requires more != []
    ensures var front, last := Absorb(out, more[..|more| - 1]), more[|more| - 1];
            Absorb(out, more) == if last.name in Names(front) then front else front + [last]
  {
  }

  /** The merged pairs of a mapping, in the order they are read. */
  function MergedSources(h: Heap, n: Id, seen: set<Id>): seq<Entry>
    requires Closed(h) && n in h && seen <= h.Keys
    decreases |h.Keys - seen|
  {
    if n in seen || (!h[n].kind.Alias? && !h[n].kind.Mapping?) then []
    else
      Shrinks(h.Keys, seen, n);
      if h[n].kind.Alias? then MergedSources(h, h[n].target, seen + {n})
      else
        PartsIn(h, MergeValues(h, n));
        SourcesAll(h, Parts(h, MergeValues(h, n)), seen + {n})
  }

  lemma {:induction false} ReadInOrder(h: Heap, n: Id, seen: set<Id>)
    requires Closed(h) && n in h && seen <= h.Keys && Materialized(h, n, seen).Some?
    ensures h[Resolved(h, n, seen)].kind.Mapping?
    ensures Materialized(h, n, seen).value == Absorb(Explicit(h, Resolved(h, n, seen)), MergedSources(h, n, seen))
    decreases |h.Keys - seen|
  {
    hide Absorb, Materialized, SourcesAll, Explicit, MergeValues, Parts, MergedInto;
    YamlMergeKeys.Readable(h, n, seen);
    Shrinks(h.Keys, seen, n);
    if h[n].kind.Alias? {
      ReadInOrder(h, h[n].target, seen + {n});
    } else {
      MaterializedStep(h, n, seen);
      MergedMeaning(h, Explicit(h, n), Parts(h, MergeValues(h, n)), seen + {n});
    }
  }

  lemma {:induction false} MergedSpelled(h: Heap, s: Heap, n: Id, seen: set<Id>)
    requires Closed(h) && Closed(s) && Relabelled(h, s) && n in h && seen <= h.Keys
    ensures Genuine(h, MergedSources(h, n, seen))
            && MergedSources(s, n, seen) == AllRenamed(s, MergedSources(h, n, seen))
    decreases |h.Keys - seen|
  {
    hide SourcesAll, Explicit, MergeValues, Parts, Genuine, AllRenamed;
    NothingRenamed(h);
    NothingRenamed(s);
    if n !in seen && (h[n].kind.Alias? || h[n].kind.Mapping?) {
      Shrinks(h.Keys, seen, n);
      if h[n].kind.Alias? {
        MergedSpelled(h, s, h[n].target, seen + {n});
      } else {
        ExplicitSpelled(h, s, n);
        SourcesStep(h, n, seen);
        PartsSpelled(h, s, MergeValues(h, n));
        AllSourcesSpelled(h, s, Parts(h, MergeValues(h, n)), seen + {n}, [], []);
      }
    }
  }

  /** Every explicit key is spelled like what it stands for. */
  predicate KeepsNames(s: Heap, entries: seq<Entry>)
  {
    forall e <- entries :: e.key in s && s[e.key].value == e.name
  }

  lemma ExplicitKept(h: Heap, s: Heap, own: seq<Entry>)
    requires Genuine(h, own) && h.Keys == s.Keys
    ensures AllRenamed(s, own) == own <==> KeepsNames(s, own)
  {
    if AllRenamed(s, own) == own {
      forall e | e in own ensures s[e.key].value == e.name {
        var i :| 0 <= i < |own| && own[i] == e;
        assert AllRenamed(s, own)[i] == own[i];
      }
    }
  }

  /** The readings of a mapping, before and after its alias keys were spelled out, are
      the same entries if and only if each of its explicit keys and each merged key that
      counts is spelled like what it stands for, and every merged key that is shadowed
      stays so. All of this can be read off the document. */
  lemma AliasKeysExactly(h: Heap, n: Id)
    requires Closed(h) && RolesKept(h) && n in h && Materialized(h, n, {}).Some?
    ensures Closed(Spelled(h)) && Spelled(h).Keys == h.Keys && Materialized(Spelled(h), n, {}).Some?
    ensures forall e <- MergedSources(h, n, {}) :: e.key in Spelled(h)
    ensures var own, merged := Explicit(h, Resolved(h, n, {})), MergedSources(h, n, {});
            Materialized(Spelled(h), n, {}) == Materialized(h, n, {}) <==>
            KeepsNames(Spelled(h), own) && Harmless(Spelled(h), own, merged)
  {
    hide Absorb, Materialized, Explicit, MergedSources, Spelled, Harmless, KeepsNames, Resolved, Genuine, AllRenamed,
         Relabelled;
    var s, m := Spelled(h), Resolved(h, n, {});
    SpelledShape(h);
    SpelledRelabels(h);
    SourcesSpelled(h, s, n, {});
    ReadInOrder(h, n, {});
    ReadInOrder(s, n, {});
    SameResolved(h, s, n, {});
    ExplicitSpelled(h, s, m);
    MergedSpelled(h, s, n, {});
    ExplicitKept(h, s, Explicit(h, m));
    Keys(h, MergedSources(h, n, {}));
    AbsorbNames(Explicit(h, m), MergedSources(h, n, {}));
    AbsorbNames(Explicit(s, m), MergedSources(s, n, {}));
    RenamedLength(h, s, Explicit(h, m));
    if AllRenamed(s, Explicit(h, m)) == Explicit(h, m) {
      RenamingExactly(h, s, Explicit(h, m), MergedSources(h, n, {}));
    }
  }

  lemma RenamedLength(h: Heap, s: Heap, entries: seq<Entry>)
    requires Genuine(h, entries) && h.Keys == s.Keys
    ensures (forall e <- entries :: e.key in s) && |AllRenamed(s, entries)| == |entries|
  {
  }

  lemma SpelledRelabels(h: Heap)
    requires Closed(h) && RolesKept(h)
    ensures Relabelled(h, Spelled(h))
  {
    SpelledShape(h);
    hide Spelled;
  }

  // Reading along a chain of keys

  /** Every mapping that the chain goes through reads alike. */
  ghost predicate AlikeAlong(h: Heap, s: Heap, n: Id, path: seq<string>)
    requires Closed(h) && Closed(s) && n in h && h.Keys == s.Keys
    decreases |path|
  {
    path == [] ||
    (&& Materialized(s, n, {}) == Materialized(h, n, {})
     && (Materialized(h, n, {}).Some? && First(Materialized(h, n, {}).value, path[0]).Found? ==>
           var v := First(Materialized(h, n, {}).value, path[0]).value;
           v in h && AlikeAlong(h, s, v, path[1..])))
  }

  /** Then the copy reads along it as the document does. */
  lemma {:induction false} AlikeReads(h: Heap, s: Heap, n: Id, path: seq<string>)
    requires Closed(h) && Closed(s) && n in h && h.Keys == s.Keys && AlikeAlong(h, s, n, path)
    ensures Lookup(s, n, path) == Lookup(h, n, path)
    decreases |path|
  {
    if path != [] && Materialized(h, n, {}).Some? {
      var found := First(Materialized(h, n, {}).value, path[0]);
      if found.Found? {
        AlikeReads(h, s, found.value, path[1..]);
      }
    }
  }

  // The smallest such document

  /** A key written as an alias is known by the name of the alias before copying, and
      by what it stands for afterwards. */
  lemma AliasKeyIsRenamed(h: Heap, n: Id, key: Id, value: Id, name: Id)
    requires Closed(h) && n in h && h[n].kind.Mapping? && h[n].content == [key, value]
    requires key in h && h[key].kind.Alias? && h[key].tag != MERGE && h[key].target == name
    requires name in h && h[name].kind.Scalar? && h[name].content == [] && h[name].value != h[key].value
    requires value in h && h[value].kind.Scalar? && h[value].content == []
    ensures Materialized(h, n, {}) == Some([Entry(h[key].value, key, value)])
    ensures var copy := Copied(h, n, {});
            copy.Some? && |copy.value.children| == 2 && copy.value.children[0].value == h[name].value != h[key].value
  {
    hide Copied;
    OwnUnfold(h, h[n].content, 1);
    MaterializedStep(h, n, {});
    assert Parts(h, []) == [] && MergeValues(h, n) == [];
    assert Explicit(h, n) == [Entry(h[key].value, key, value)];
    assert {} + {n} == {n};
    assert MergedInto(h, Explicit(h, n), [], {n}) == Some(Explicit(h, n));
    assert {n} + {key} == {n, key};
    CopiedLeaf(h, name, {n, key});
    CopiedAlias(h, key, {n});
    CopiedLeaf(h, value, {n});
    CopiedPair(h, n, key, value);
  }
}
