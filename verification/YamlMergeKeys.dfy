/** Mappings with more than one merge key: the walk follows only the last one, the
    editor follows all (config/unknown_fields.go:77-104,
    internal/gateway/config_store.go:216-261). */
module YamlMergeKeys {
  import opened YamlMerge
  import opened YamlDedupe
  import opened YamlEdit

  // The document in which every mapping has lost all but its last merge key

  /** Index of the last merge pair among the first `i`, or -1. */
  function LastMerge(h: Heap, content: seq<Id>, i: nat): (k: int)
    requires 2 * i <= |content| && AllIn(h, content)
    ensures -1 <= k < i
    ensures k >= 0 ==> h[content[2 * k]].tag == MERGE
  {
    if i == 0 then -1 else if h[content[2 * i - 2]].tag == MERGE then i - 1 else LastMerge(h, content, i - 1)
  }

  /** The explicit pairs, then the last merge. */
  function LastOnly(h: Heap, content: seq<Id>): seq<Id>
    requires AllIn(h, content)
  {
    var k := LastMerge(h, content, |content| / 2);
    Flat(Own(h, content, |content| / 2)) + if k < 0 then [] else [content[2 * k], content[2 * k + 1]]
  }

  function LastMergesOnly(h: Heap): Heap
    requires Closed(h)
  {
    map n <- h :: if h[n].kind.Mapping? && |MergeValues(h, n)| > 1 then h[n].(content := LastOnly(h, h[n].content))
      else h[n]
  }

  lemma {:induction false} LastMergeValue(h: Heap, content: seq<Id>, i: nat)
    requires 2 * i <= |content| && AllIn(h, content)
    ensures var k, merges := LastMerge(h, content, i), Merges(h, content, i);
            if merges == [] then k < 0 else k >= 0 && merges[|merges| - 1] == content[2 * k + 1]
    decreases i
  {
    if i > 0 {
      LastMergeValue(h, content, i - 1);
    }
  }

  function LastOf(merges: seq<Id>): seq<Id> {
    if merges == [] then [] else [merges[|merges| - 1]]
  }

  lemma LastOnlyReads(h: Heap, content: seq<Id>)
    requires AllIn(h, content)
    ensures var last := LastOnly(h, content);
            && AllIn(h, last) && |last| % 2 == 0
            && Own(h, last, |last| / 2) == Own(h, content, |content| / 2)
            && Merges(h, last, |last| / 2) == LastOf(Merges(h, content, |content| / 2))
  {
    hide Own, Merges, Flat, LastMerge, Genuine;
    var own := Own(h, content, |content| / 2);
    OwnGenuine(h, content, |content| / 2);
    FlatOwn(h, own);
    LastMergeValue(h, content, |content| / 2);
    var k := LastMerge(h, content, |content| / 2);
    assert |Flat(own)| / 2 == |own|;
    if k >= 0 {
      PairPushed(h, Flat(own), content[2 * k], content[2 * k + 1]);
    } else {
      assert Flat(own) + [] == Flat(own);
    }
  }

  /** Two heaps label their nodes alike. */
  predicate SameLabels(h: Heap, h': Heap) {
    h.Keys == h'.Keys && forall n <- h :: h'[n].tag == h[n].tag && h'[n].value == h[n].value
  }

  lemma {:induction false} LabelsRead(h: Heap, h': Heap, content: seq<Id>, i: nat)
    requires SameLabels(h, h') && AllIn(h, content) && 2 * i <= |content|
    ensures AllIn(h', content) && Own(h', content, i) == Own(h, content, i)
            && Merges(h', content, i) == Merges(h, content, i)
    decreases i
  {
    if i > 0 {
      LabelsRead(h, h', content, i - 1);
    }
  }

  lemma LastMergesClosed(h: Heap)
    requires Closed(h)
    ensures Closed(LastMergesOnly(h)) && SameLabels(h, LastMergesOnly(h))
    ensures forall n <- h :: LastMergesOnly(h)[n].kind == h[n].kind && LastMergesOnly(h)[n].target == h[n].target
    ensures forall n <- h :: !h[n].kind.Mapping? ==> LastMergesOnly(h)[n] == h[n]
  {
    var last := LastMergesOnly(h);
    forall n | n in h
      ensures AllIn(h, last[n].content)
    {
      LastOnlyReads(h, h[n].content);
    }
    hide LastOnly, MergeValues;
  }

  /** Every mapping keeps its explicit entries and its last merge. */
  lemma LastMergesRead(h: Heap, n: Id)
    requires Closed(h) && n in h
    ensures Closed(LastMergesOnly(h))
    ensures Explicit(LastMergesOnly(h), n) == Explicit(h, n)
    ensures MergeValues(LastMergesOnly(h), n) == (if h[n].kind.Mapping? then LastOf(MergeValues(h, n))
                                                  else MergeValues(h, n))
  {
    hide LastMergesOnly, Own, Merges, LastOnly, Closed;
    LastMergesClosed(h);
    LastContent(h, n);
    LastOnlyReads(h, h[n].content);
    var last := LastMergesOnly(h);
    LabelsRead(h, last, last[n].content, |last[n].content| / 2);
  }

  lemma LastContent(h: Heap, n: Id)
    requires Closed(h) && n in h
    ensures n in LastMergesOnly(h) && AllIn(h, h[n].content) && AllIn(h, LastMergesOnly(h)[n].content)
    ensures LastMergesOnly(h)[n].content ==
            if h[n].kind.Mapping? && |MergeValues(h, n)| > 1 then LastOnly(h, h[n].content) else h[n].content
  {
    hide Own, Merges, LastOnly;
    LastOnlyReads(h, h[n].content);
  }

  lemma OneMergeLeft(h: Heap)
    requires Closed(h)
    ensures Closed(LastMergesOnly(h)) && OneMerge(LastMergesOnly(h))
  {
    LastMergesClosed(h);
    var last := LastMergesOnly(h);
    forall n | n in last && last[n].kind.Mapping?
      ensures |Merges(last, last[n].content, |last[n].content| / 2)| <= 1
    {
      LastMergesRead(h, n);
    }
  }

  // The walk cannot tell the difference

  lemma {:induction false} SameWalk(h: Heap, n: Id, w: Walked)
    requires Closed(h) && n in h && w.visited <= h.Keys
    ensures Closed(LastMergesOnly(h)) && Walk(LastMergesOnly(h), n, w) == Walk(h, n, w)
    decreases |h.Keys - w.visited|, 0
  {
    LastMergesClosed(h);
    hide LastMergesOnly, Explicit, MergeValues;
    if n !in w.visited {
      Shrinks(h.Keys, w.visited, n);
      var entered := w.(visited := w.visited + {n});
      if h[n].kind.Alias? {
        SameWalk(h, h[n].target, entered);
      } else if h[n].kind.Sequence? {
        SameWalkAll(h, h[n].content, entered);
      } else if h[n].kind.Mapping? {
        LastMergesRead(h, n);
        hide Walk;
        WalkStep(h, n, w);
        WalkStep(LastMergesOnly(h), n, w);
        var merges := MergeValues(h, n);
        if merges != [] {
          SameWalk(h, merges[|merges| - 1], Walked(w.visited + {n}, Absorb(w.out, Explicit(h, n))));
        }
      }
    }
  }

  lemma {:induction false} SameWalkAll(h: Heap, items: seq<Id>, w: Walked)
    requires Closed(h) && AllIn(h, items) && w.visited <= h.Keys
    ensures Closed(LastMergesOnly(h)) && WalkAll(LastMergesOnly(h), items, w) == WalkAll(h, items, w)
    decreases |h.Keys - w.visited|, |items| + 1
  {
    LastMergesClosed(h);
    hide LastMergesOnly, Walk;
    if items != [] {
      var front := WalkAll(h, items[..|items| - 1], w);
      Fewer(h.Keys, w.visited, front.visited);
      SameWalkAll(h, items[..|items| - 1], w);
      SameWalk(h, items[|items| - 1], front);
    }
  }

  // What is merged

  /** The names that these merge parts contribute, each read on its own. */
  ghost function PartNames(h: Heap, parts: seq<Id>): set<string>
    requires Closed(h) && AllIn(h, parts)
  {
    if parts == [] then {}
    else
      PartNames(h, parts[..|parts| - 1]) +
      var m := Materialized(h, parts[|parts| - 1], {});
      if m.Some? then Names(m.value) else {}
  }

  lemma {:induction false} MergedNames(h: Heap, out: seq<Entry>, parts: seq<Id>, seen: set<Id>)
    requires Closed(h) && AllIn(h, parts) && seen <= h.Keys && MergedInto(h, out, parts, seen).Some?
    ensures Names(MergedInto(h, out, parts, seen).value) == Names(out) + PartNames(h, parts)
    decreases |parts|
  {
    hide Names, Materialized, Absorb;
    if parts != [] {
      var front, last := parts[..|parts| - 1], parts[|parts| - 1];
      MergedNames(h, out, front, seen);
      MaterializedShorter(h, last, seen, {});
      AbsorbNames(MergedInto(h, out, front, seen).value, Materialized(h, last, seen).value);
    }
  }

  lemma {:induction false} AllMerge(h: Heap, out: seq<Entry>, parts: seq<Id>, seen: set<Id>)
    requires Closed(h) && AllIn(h, parts) && seen <= h.Keys
    requires forall p <- parts :: Materialized(h, p, seen).Some?
    ensures MergedInto(h, out, parts, seen).Some?
    decreases |parts|
  {
    hide Materialized;
    if parts != [] {
      AllMerge(h, out, parts[..|parts| - 1], seen);
    }
  }

  lemma {:induction false} PartNamesConcat(h: Heap, a: seq<Id>, b: seq<Id>)
    requires Closed(h) && AllIn(h, a) && AllIn(h, b)
    ensures AllIn(h, a + b) && PartNames(h, a + b) == PartNames(h, a) + PartNames(h, b)
    decreases |b|
  {
    hide Materialized, Names;
    if b == [] {
      assert a + b == a;
    } else {
      PartNamesConcat(h, a, b[..|b| - 1]);
      assert (a + b)[..|a + b| - 1] == a + b[..|b| - 1];
    }
  }

  /** The parts of all merges but the last, and those of the last. */
  lemma PartsSplit(h: Heap, merges: seq<Id>)
    requires Closed(h) && AllIn(h, merges) && merges != []
    ensures var n := |merges| - 1;
            && AllIn(h, merges[..n]) && AllIn(h, Parts(h, merges[..n])) && AllIn(h, PartsOf(h, merges[n]))
               && AllIn(h, Parts(h, merges))
            && Parts(h, merges) == Parts(h, merges[..n]) + PartsOf(h, merges[n])
            && PartNames(h, Parts(h, merges)) == PartNames(h, Parts(h, merges[..n])) + PartNames(h,
                PartsOf(h, merges[n]))
  {
    PartsIn(h, merges);
    PartsIn(h, merges[..|merges| - 1]);
    PartNamesConcat(h, Parts(h, merges[..|merges| - 1]), PartsOf(h, merges[|merges| - 1]));
  }

  lemma LastParts(h: Heap, h': Heap, merges: seq<Id>)
    requires Closed(h) && Closed(h') && AllIn(h, merges) && AllIn(h', merges)
    requires forall n <- merges :: h'[n].kind == h[n].kind && (h[n].kind.Sequence? ==> h'[n].content == h[n].content)
    ensures Parts(h', LastOf(merges)) == if merges == [] then [] else PartsOf(h, merges[|merges| - 1])
  {
    if merges != [] {
      assert LastOf(merges)[..0] == [];
      assert merges[|merges| - 1] in merges;
      assert Parts(h', []) == [];
    }
  }

  /** What can be read with all merges can be read with the last ones alone. */
  lemma {:induction false} LastReadable(h: Heap, n: Id, seen: set<Id>)
    requires Closed(h) && n in h && seen <= h.Keys && Materialized(h, n, seen).Some?
    ensures Closed(LastMergesOnly(h)) && Materialized(LastMergesOnly(h), n, seen).Some?
    decreases |h.Keys - seen|
  {
    LastMergesClosed(h);
    var last := LastMergesOnly(h);
    Readable(h, n, seen);
    hide LastMergesOnly, Explicit, MergeValues;
    Shrinks(h.Keys, seen, n);
    if h[n].kind.Alias? {
      LastReadable(h, h[n].target, seen + {n});
    } else {
      hide Materialized;
      MaterializedStep(h, n, seen);
      MaterializedStep(last, n, seen);
      LastMergesRead(h, n);
      var merges := MergeValues(h, n);
      PartsSucceed(h, Explicit(h, n), Parts(h, merges), seen + {n});
      LastParts(h, last, merges);
      if merges != [] {
        PartsSplit(h, merges);
      }
      var parts := Parts(last, MergeValues(last, n));
      forall p | p in parts
        ensures Materialized(last, p, seen + {n}).Some?
      {
        assert p in Parts(h, merges);
        LastReadable(h, p, seen + {n});
      }
      AllMerge(last, Explicit(last, n), parts, seen + {n});
    }
  }

  /** A node that can be read is a mapping, or an alias of one. */
  lemma Readable(h: Heap, n: Id, seen: set<Id>)
    requires Closed(h) && n in h && seen <= h.Keys && Materialized(h, n, seen).Some?
    ensures n !in seen && (h[n].kind.Alias? || h[n].kind.Mapping?)
    ensures h[n].kind.Alias? ==>
              h[n].target in h && Materialized(h, n, seen) == Materialized(h, h[n].target, seen + {n})
  {
  }

  lemma {:induction false} ReadNames(h: Heap, n: Id, seen: set<Id>)
    requires Closed(h) && n in h && seen <= h.Keys && Materialized(h, n, seen).Some?
    ensures var m := Resolved(h, n, seen);
            && h[m].kind.Mapping? && AllIn(h, Parts(h, MergeValues(h, m)))
            && Names(Materialized(h, n, seen).value) == Names(Explicit(h, m)) + PartNames(h,
                Parts(h, MergeValues(h, m)))
    decreases |h.Keys - seen|
  {
    Readable(h, n, seen);
    Shrinks(h.Keys, seen, n);
    hide Materialized, Names, PartNames, Explicit, MergeValues, Parts;
    if h[n].kind.Alias? {
      ReadNames(h, h[n].target, seen + {n});
    } else {
      MaterializedStep(h, n, seen);
      MergedNames(h, Explicit(h, n), Parts(h, MergeValues(h, n)), seen + {n});
    }
  }

  lemma {:induction false} SameResolved(h: Heap, h': Heap, n: Id, seen: set<Id>)
    requires Closed(h) && Closed(h') && h.Keys == h'.Keys && n in h && seen <= h.Keys
    requires forall x <- h :: h'[x].kind == h[x].kind && h'[x].target == h[x].target
    ensures Resolved(h', n, seen) == Resolved(h, n, seen)
    decreases |h.Keys - seen|
  {
    if n !in seen && h[n].kind.Alias? {
      Shrinks(h.Keys, seen, n);
      SameResolved(h, h', h[n].target, seen + {n});
    }
  }

  // Both readings

  /** Whatever its mappings look like, the walk visits exactly the entries that are
      left when every mapping has only its last merge key. */
  lemma WalkReadsTheLast(h: Heap, n: Id)
    requires Closed(h) && n in h && Materialized(h, n, {}).Some?
    ensures Closed(LastMergesOnly(h)) && Materialized(LastMergesOnly(h), n, {}).Some?
    ensures Walk(h, n, Walked({}, [])).out == Absorb([], Materialized(LastMergesOnly(h), n, {}).value)
  {
    OneMergeLeft(h);
    LastReadable(h, n, {});
    SameWalk(h, n, Walked({}, []));
    WalkAgrees(LastMergesOnly(h), n, {}, {}, Walked({}, []));
  }

  /** The names that the walk visits behind the last merge of a mapping. */
  ghost function VisitedBehind(h: Heap, n: Id): set<string>
    requires Closed(h) && n in h
  {
    LastMergesClosed(h);
    var merges := MergeValues(h, n);
    if merges == [] then {} else PartNames(LastMergesOnly(h), PartsOf(h, merges[|merges| - 1]))
  }

  /** The names that the merges before the last one contribute. */
  ghost function MergedEarlier(h: Heap, n: Id): set<string>
    requires Closed(h) && n in h
  {
    var merges := MergeValues(h, n);
    if merges == [] then {} else PartsSplit(h, merges); PartNames(h, Parts(h, merges[..|merges| - 1]))
  }

  ghost function MergedLast(h: Heap, n: Id): set<string>
    requires Closed(h) && n in h
  {
    var merges := MergeValues(h, n);
    if merges == [] then {} else PartsSplit(h, merges); PartNames(h, PartsOf(h, merges[|merges| - 1]))
  }

  lemma VisitedNames(h: Heap, n: Id)
    requires Closed(h) && n in h && Materialized(h, n, {}).Some?
    ensures Names(Walk(h, n, Walked({}, [])).out) ==
            Names(Explicit(h, Resolved(h, n, {}))) + VisitedBehind(h, Resolved(h, n, {}))
  {
    hide Walk, Materialized, LastMergesOnly, Explicit, MergeValues, Resolved, Absorb, Names, PartNames, PartsOf;
    var last, m := LastMergesOnly(h), Resolved(h, n, {});
    LastMergesClosed(h);
    WalkReadsTheLast(h, n);
    AbsorbNames([], Materialized(last, n, {}).value);
    NoNames();
    ReadNames(last, n, {});
    SameResolved(h, last, n, {});
    MaterializedMapping(h, n, {});
    LastMergesRead(h, m);
    LastParts(h, last, MergeValues(h, m));
    NoParts(last);
  }

  lemma NoParts(h: Heap)
    requires Closed(h)
    ensures Parts(h, []) == [] && PartNames(h, []) == {}
  {
  }

  lemma EffectiveNames(h: Heap, n: Id)
    requires Closed(h) && n in h && Materialized(h, n, {}).Some?
    ensures var m := Resolved(h, n, {});
            Names(Materialized(h, n, {}).value) == Names(Explicit(h, m)) + MergedEarlier(h, m) + MergedLast(h, m)
  {
    hide Materialized, Explicit, Resolved, MergeValues, PartNames, Parts, Names;
    var m := Resolved(h, n, {});
    ReadNames(h, n, {});
    if MergeValues(h, m) != [] {
      PartsSplit(h, MergeValues(h, m));
    } else {
      NoParts(h);
    }
  }

  /** The two readings name the same entries if and only if every name that the
      merges contribute is explicit, or visited behind the last merge. */
  lemma ReadingsAgreeExactly(h: Heap, n: Id)
    requires Closed(h) && n in h && Materialized(h, n, {}).Some?
    ensures var m := Resolved(h, n, {});
            Names(Walk(h, n, Walked({}, [])).out) == Names(Materialized(h, n, {}).value) <==>
            Names(Explicit(h, m)) + VisitedBehind(h, m) == Names(Explicit(h, m)) + MergedEarlier(h, m) + MergedLast(h,
                m)
  {
    hide *;
    VisitedNames(h, n);
    EffectiveNames(h, n);
  }

  // Several merge keys in one mapping, and none twice behind it

  /** From node `x` reading goes on to node `y`: what an alias stands for, or a part of a merge. */
  predicate ReadStep(h: Heap, x: Id, y: Id)
    requires Closed(h) && x in h
  {
    (h[x].kind.Alias? && y == h[x].target) || (h[x].kind.Mapping? && y in Parts(h, MergeValues(h, x)))
  }

  predicate ReadPath(h: Heap, p: seq<Id>)
    requires Closed(h)
  {
    p != [] && AllIn(h, p) && forall i :: 0 <= i < |p| - 1 ==> ReadStep(h, p[i], p[i + 1])
  }

  ghost predicate ReadBehind(h: Heap, m: Id, x: Id)
    requires Closed(h) && m in h
  {
    exists p: seq<Id> :: ReadPath(h, p) && p[0] in LastPartsOf(h, m) && p[|p| - 1] == x
  }

  function LastPartsOf(h: Heap, m: Id): (r: seq<Id>)
    requires Closed(h) && m in h
  {
    var merges := MergeValues(h, m);
    if merges == [] then [] else PartsOf(h, merges[|merges| - 1])
  }

  /** No mapping that is read behind the last merge of `m` has two merge keys itself. */
  ghost predicate OneMergeBehind(h: Heap, m: Id)
    requires Closed(h) && m in h
  {
    forall x <- h :: ReadBehind(h, m, x) && h[x].kind.Mapping? ==> |MergeValues(h, x)| <= 1
  }

  /** Reading does not leave this set, and its mappings have no second merge key. */
  ghost predicate ReadClosed(h: Heap, way: set<Id>)
    requires Closed(h)
  {
    && way <= h.Keys
    && (forall x <- way, y :: ReadStep(h, x, y) ==> y in way)
    && (forall x <- way :: h[x].kind.Mapping? ==> |MergeValues(h, x)| <= 1)
  }

  ghost function Behind(h: Heap, m: Id): set<Id>
    requires Closed(h) && m in h
  {
    set x | x in h && ReadBehind(h, m, x)
  }

  lemma BehindClosed(h: Heap, m: Id)
    requires Closed(h) && m in h && OneMergeBehind(h, m)
    ensures ReadClosed(h, Behind(h, m)) && forall p <- LastPartsOf(h, m) :: p in Behind(h, m)
  {
    hide MergeValues, ReadStep, LastPartsOf;
    forall x, y | x in Behind(h, m) && ReadStep(h, x, y)
      ensures y in Behind(h, m)
    {
      var p: seq<Id> :| ReadPath(h, p) && p[0] in LastPartsOf(h, m) && p[|p| - 1] == x;
      StepIn(h, x, y);
      assert ReadPath(h, p + [y]) && (p + [y])[0] == p[0] && (p + [y])[|p|] == y;
    }
    LastPartsIn(h, m);
    forall p | p in LastPartsOf(h, m)
      ensures p in Behind(h, m)
    {
      assert ReadPath(h, [p]) && [p][0] == p;
    }
  }

  lemma StepIn(h: Heap, x: Id, y: Id)
    requires Closed(h) && x in h && ReadStep(h, x, y)
    ensures y in h
  {
    PartsIn(h, MergeValues(h, x));
  }

  lemma LastPartsIn(h: Heap, m: Id)
    requires Closed(h) && m in h
    ensures AllIn(h, LastPartsOf(h, m))
    ensures forall p <- LastPartsOf(h, m) :: p in h
    ensures forall p <- LastPartsOf(h, m) :: p in Parts(h, MergeValues(h, m))
  {
    hide MergeValues;
    if MergeValues(h, m) != [] {
      PartsSplit(h, MergeValues(h, m));
    }
  }

  lemma LastMergeParts(h: Heap, merges: seq<Id>)
    requires Closed(h) && AllIn(h, merges)
    ensures Closed(LastMergesOnly(h)) && AllIn(LastMergesOnly(h), merges)
            && Parts(LastMergesOnly(h), merges) == Parts(h, merges)
    decreases |merges|
  {
    LastMergesClosed(h);
    hide LastMergesOnly;
    if merges != [] {
      LastMergeParts(h, merges[..|merges| - 1]);
    }
  }

  /** In such a set nothing is lost when every mapping has only its last merge key. */
  lemma {:induction false} SameInside(h: Heap, way: set<Id>, n: Id, seen: set<Id>)
    requires Closed(h) && ReadClosed(h, way) && n in way && seen <= h.Keys
    ensures Closed(LastMergesOnly(h)) && Materialized(LastMergesOnly(h), n, seen) == Materialized(h, n, seen)
    decreases |h.Keys - seen|, 0
  {
    LastMergesClosed(h);
    var last := LastMergesOnly(h);
    hide LastMergesOnly, Explicit, MergeValues;
    if n !in seen {
      Shrinks(h.Keys, seen, n);
      if h[n].kind.Alias? {
        assert ReadStep(h, n, h[n].target);
        SameInside(h, way, h[n].target, seen + {n});
      } else if h[n].kind.Mapping? {
        hide Materialized;
        MaterializedStep(h, n, seen);
        MaterializedStep(last, n, seen);
        LastMergesRead(h, n);
        OneIsLast(MergeValues(h, n));
        LastMergeParts(h, MergeValues(h, n));
        forall p | p in Parts(h, MergeValues(h, n))
          ensures p in way
        {
          assert ReadStep(h, n, p);
        }
        PartsIn(h, MergeValues(h, n));
        SameMergedInside(h, way, Explicit(h, n), Parts(h, MergeValues(h, n)), seen + {n});
      }
    }
  }

  lemma OneIsLast(merges: seq<Id>)
    requires |merges| <= 1
    ensures LastOf(merges) == merges
  {
  }

  lemma {:induction false} SameMergedInside(h: Heap, way: set<Id>, out: seq<Entry>, parts: seq<Id>, seen: set<Id>)
    requires Closed(h) && ReadClosed(h, way) && AllIn(h, parts) && (forall p <- parts :: p in way) && seen <= h.Keys
    ensures Closed(LastMergesOnly(h)) && AllIn(LastMergesOnly(h), parts)
    ensures MergedInto(LastMergesOnly(h), out, parts, seen) == MergedInto(h, out, parts, seen)
    decreases |h.Keys - seen|, |parts| + 1
  {
    LastMergesClosed(h);
    hide LastMergesOnly, ReadClosed, Materialized, Absorb;
    if parts != [] {
      SameMergedInside(h, way, out, parts[..|parts| - 1], seen);
      SameInside(h, way, parts[|parts| - 1], seen);
    }
  }

  lemma {:induction false} SamePartNames(h: Heap, way: set<Id>, parts: seq<Id>)
    requires Closed(h) && ReadClosed(h, way) && AllIn(h, parts) && forall p <- parts :: p in way
    ensures Closed(LastMergesOnly(h)) && AllIn(LastMergesOnly(h), parts)
    ensures PartNames(LastMergesOnly(h), parts) == PartNames(h, parts)
    decreases |parts|
  {
    LastMergesClosed(h);
    hide LastMergesOnly, ReadClosed, Materialized, Names;
    if parts != [] {
      SamePartNames(h, way, parts[..|parts| - 1]);
      SameInside(h, way, parts[|parts| - 1], {});
    }
  }

  /** If no mapping behind the last merge has several merge keys, the walk visits there
      what that merge contributes. */
  lemma LastIsVisited(h: Heap, m: Id)
    requires Closed(h) && m in h && OneMergeBehind(h, m)
    ensures VisitedBehind(h, m) == MergedLast(h, m)
  {
    hide LastMergesOnly, MergeValues, OneMergeBehind, Behind, ReadClosed, PartNames;
    LastMergesClosed(h);
    BehindClosed(h, m);
    LastPartsIn(h, m);
    SamePartNames(h, Behind(h, m), LastPartsOf(h, m));
  }

  /** Where no mapping behind the last merge has several merge keys itself: the two
      readings name the same entries if and only if every name of the earlier merges is
      explicit or in the last merge. */
  lemma EarlierMergesExactly(h: Heap, n: Id)
    requires Closed(h) && n in h && Materialized(h, n, {}).Some? && OneMergeBehind(h, Resolved(h, n, {}))
    ensures var m := Resolved(h, n, {});
            Names(Walk(h, n, Walked({}, [])).out) == Names(Materialized(h, n, {}).value) <==>
            forall name <- MergedEarlier(h, m) :: name in Names(Explicit(h, m)) || name in MergedLast(h, m)
  {
    hide *;
    ReadingsAgreeExactly(h, n);
    LastIsVisited(h, Resolved(h, n, {}));
  }

  // The smallest such mappings

  lemma Plain(h: Heap, n: Id, seen: set<Id>)
    requires Closed(h) && n in h && h[n].kind.Mapping? && n !in seen && seen <= h.Keys && MergeValues(h, n) == []
    ensures Materialized(h, n, seen) == Some(Explicit(h, n))
    ensures Walk(h, n, Walked(seen, [])).out == Absorb([], Explicit(h, n))
  {
    hide Own, Merges, Walk, Materialized, Absorb, MergeValues, Explicit;
    MaterializedStep(h, n, seen);
    assert Parts(h, []) == [];
    assert MergedInto(h, Explicit(h, n), [], seen + {n}) == Some(Explicit(h, n));
    WalkStep(h, n, Walked(seen, []));
  }

  lemma MergedTwo(h: Heap, one: Id, two: Id, seen: set<Id>)
    requires Closed(h) && one in h && two in h && seen <= h.Keys
    requires Materialized(h, one, seen).Some? && Materialized(h, two, seen).Some?
    ensures MergedInto(h, [], [one, two], seen) ==
            Some(Absorb(Absorb([], Materialized(h, one, seen).value), Materialized(h, two, seen).value))
  {
    hide Materialized, Absorb;
    assert [one, two][..1] == [one] && [one][..0] == [];
    assert MergedInto(h, [], [], seen) == Some([]);
    assert MergedInto(h, [], [one], seen) == Some(Absorb([], Materialized(h, one, seen).value));
  }

  lemma TwoParts(h: Heap, one: Id, two: Id)
    requires one in h && two in h && !h[one].kind.Sequence? && !h[two].kind.Sequence?
    ensures Parts(h, [one, two]) == [one, two]
  {
    assert [one, two][..1] == [one] && [one][..0] == [];
    assert Parts(h, []) == [] && Parts(h, [one]) == [one];
  }

  /** Two plain merges and nothing else: the readings differ exactly if the first merge
      has a name that the second one lacks. */
  lemma TwoMergeKeysDiffer(h: Heap, n: Id, one: Id, two: Id)
    requires Closed(h) && n in h && h[n].kind.Mapping? && Explicit(h, n) == [] && MergeValues(h, n) == [one, two]
    requires one in h && one != n && h[one].kind.Mapping? && MergeValues(h, one) == []
    requires two in h && two != n && h[two].kind.Mapping? && MergeValues(h, two) == []
    ensures Materialized(h, n, {}) == Some(Absorb(Absorb([], Explicit(h, one)), Explicit(h, two)))
    ensures Walk(h, n, Walked({}, [])).out == Absorb([], Explicit(h, two))
    ensures Names(Walk(h, n, Walked({}, [])).out) != Names(Materialized(h, n, {}).value) <==>
            exists name <- Names(Explicit(h, one)) :: name !in Names(Explicit(h, two))
  {
    hide Own, Merges, Walk, Materialized, Absorb, MergeValues, Explicit, Parts, MergedInto, Names;
    MaterializedStep(h, n, {});
    WalkStep(h, n, Walked({}, []));
    assert {} + {n} == {n};
    Plain(h, one, {n});
    Plain(h, two, {n});
    MergedTwo(h, one, two, {n});
    TwoParts(h, one, two);
    AbsorbNothing([], []);
    AbsorbNames([], Explicit(h, one));
    AbsorbNames([], Explicit(h, two));
    AbsorbNames(Absorb([], Explicit(h, one)), Explicit(h, two));
    NoNames();
  }

  lemma NoNames()
    ensures Names([]) == {}
  {
  }
}
