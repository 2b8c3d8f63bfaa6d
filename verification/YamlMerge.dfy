/** Two implementations of YAML merge keys on one node graph
    (internal/gateway/config_store.go:216-261, config/unknown_fields.go:77-104;
    YAML 1.1 merge key type, yaml.org/type/merge.html).

    Nodes live in a heap indexed by identity; aliases and merges may form cycles. */
module YamlMerge {

  datatype Option<+T> = None | Some(value: T)

  type Id = nat

  datatype Kind = Document | Sequence | Mapping | Scalar | Alias

  /** `target` is what an alias stands for. */
  datatype Node = Node(kind: Kind, tag: string, value: string, anchor: string, target: Id, content: seq<Id>)

  type Heap = map<Id, Node>

  const MERGE := "!!merge"

  /** Every node that is mentioned exists. */
  predicate Closed(h: Heap) {
    forall n <- h ::
      (h[n].kind.Alias? ==> h[n].target in h) && forall i :: 0 <= i < |h[n].content| ==> h[n].content[i] in h
  }

  datatype Entry = Entry(name: string, key: Id, value: Id)

  function PairAt(h: Heap, content: seq<Id>, i: nat): Entry
    requires 2 * i + 1 < |content| && content[2 * i] in h
  {
    Entry(h[content[2 * i]].value, content[2 * i], content[2 * i + 1])
  }

  predicate AllIn(h: Heap, content: seq<Id>) {
    forall i :: 0 <= i < |content| ==> content[i] in h
  }

  /** The explicit entries among the first `i` pairs. */
  function Own(h: Heap, content: seq<Id>, i: nat): seq<Entry>
    requires 2 * i <= |content| && AllIn(h, content)
  {
    if i == 0 then []
    else Own(h, content, i - 1) + if h[content[2 * i - 2]].tag == MERGE then [] else [PairAt(h, content, i - 1)]
  }

  /** The merge values among the first `i` pairs. */
  function Merges(h: Heap, content: seq<Id>, i: nat): seq<Id>
    requires 2 * i <= |content| && AllIn(h, content)
  {
    if i == 0 then []
    else Merges(h, content, i - 1) + if h[content[2 * i - 2]].tag == MERGE then [content[2 * i - 1]] else []
  }

  lemma OwnUnfold(h: Heap, content: seq<Id>, i: nat)
    requires i > 0 && 2 * i <= |content| && AllIn(h, content)
    ensures Own(h, content, i) == Own(h, content, i - 1) + if h[content[2 * i - 2]].tag == MERGE then []
              else [PairAt(h, content, i - 1)]
    ensures Merges(h, content, i) == Merges(h, content, i - 1) + if h[content[2 * i - 2]].tag == MERGE then
              [content[2 * i - 1]] else []
  {
  }

  /** What one merge value contributes: the items of a sequence, or itself. */
  function PartsOf(h: Heap, merge: Id): seq<Id>
    requires merge in h
  {
    if h[merge].kind.Sequence? then h[merge].content else [merge]
  }

  function Parts(h: Heap, merges: seq<Id>): seq<Id>
    requires AllIn(h, merges)
  {
    if merges == [] then [] else Parts(h, merges[..|merges| - 1]) + PartsOf(h, merges[|merges| - 1])
  }

  // Entries

  function Names(entries: seq<Entry>): set<string> {
    set i | 0 <= i < |entries| :: entries[i].name
  }

  predicate DistinctNames(entries: seq<Entry>) {
    forall i, j :: 0 <= i < j < |entries| ==> entries[i].name != entries[j].name
  }

  /** Append the entries whose names are new. */
  function Absorb(out: seq<Entry>, more: seq<Entry>): seq<Entry>
    decreases |more|
  {
    if more == [] then out
    else
      var front := Absorb(out, more[..|more| - 1]);
      var last := more[|more| - 1];
      if last.name in Names(front) then front else front + [last]
  }

  lemma {:induction false} AbsorbNames(out: seq<Entry>, more: seq<Entry>)
    ensures Names(Absorb(out, more)) == Names(out) + Names(more)
    ensures DistinctNames(Absorb(out, more)) <==> DistinctNames(out)
    ensures out <= Absorb(out, more)
    decreases |more|
  {
    if more != [] {
      var front := Absorb(out, more[..|more| - 1]);
      var last := more[|more| - 1];
      AbsorbNames(out, more[..|more| - 1]);
      assert more == more[..|more| - 1] + [last];
      hide Names, DistinctNames;
      NamesPush(more[..|more| - 1], last);
      NamesPush(front, last);
    }
  }

  lemma NamesPush(entries: seq<Entry>, e: Entry)
    ensures Names(entries + [e]) == Names(entries) + {e.name}
    ensures DistinctNames(entries + [e]) <==> DistinctNames(entries) && e.name !in Names(entries)
  {
    var more := entries + [e];
    assert more[|entries|] == e;
    forall name | name in Names(entries)
      ensures name in Names(more)
    {
      var i :| 0 <= i < |entries| && entries[i].name == name;
      assert more[i] == entries[i];
    }
    if DistinctNames(more) {
      forall i, j | 0 <= i < j < |entries|
        ensures entries[i].name != entries[j].name
      {
        assert more[i].name != more[j].name;
      }
      forall i | 0 <= i < |entries|
        ensures entries[i].name != e.name
      {
        assert more[i].name != more[|entries|].name;
      }
    }
  }

  lemma {:induction false} AbsorbNothing(out: seq<Entry>, more: seq<Entry>)
    requires Names(more) <= Names(out)
    ensures Absorb(out, more) == out
    decreases |more|
  {
    if more != [] {
      assert more == more[..|more| - 1] + [more[|more| - 1]];
      NamesPush(more[..|more| - 1], more[|more| - 1]);
      AbsorbNothing(out, more[..|more| - 1]);
    }
  }

  lemma {:induction false} AbsorbConcat(out: seq<Entry>, a: seq<Entry>, b: seq<Entry>)
    ensures Absorb(out, a + b) == Absorb(Absorb(out, a), b)
    decreases |b|
  {
    if b == [] {
      assert a + b == a;
    } else {
      AbsorbConcat(out, a, b[..|b| - 1]);
      assert (a + b)[..|a + b| - 1] == a + b[..|b| - 1];
    }
  }

  /** Absorbing what was absorbed is absorbing both, one after the other. */
  lemma {:induction false} AbsorbAssociative(x: seq<Entry>, y: seq<Entry>, z: seq<Entry>)
    ensures Absorb(x, Absorb(y, z)) == Absorb(Absorb(x, y), z)
    decreases |z|
  {
    if z != [] {
      var front, last := z[..|z| - 1], z[|z| - 1];
      AbsorbAssociative(x, y, front);
      AbsorbNames(y, front);
      AbsorbNames(x, y);
      AbsorbNames(Absorb(x, y), front);
      if last.name !in Names(Absorb(y, front)) {
        AbsorbConcat(x, Absorb(y, front), [last]);
        assert Absorb(Absorb(x, Absorb(y, front)), [last]) ==
               if last.name in Names(Absorb(x, Absorb(y, front))) then Absorb(x, Absorb(y, front))
                 else Absorb(x, Absorb(y, front)) + [last] by {
          assert [last][..0] == [];
        }
      }
    }
  }

  lemma {:induction false} AbsorbDistinct(entries: seq<Entry>)
    ensures Absorb([], entries) == entries <==> DistinctNames(entries)
    ensures |Absorb([], entries)| <= |entries|
    decreases |entries|
  {
    if entries != [] {
      var front, last := entries[..|entries| - 1], entries[|entries| - 1];
      AbsorbDistinct(front);
      AbsorbNames([], front);
      assert entries == front + [last];
      NamesPush(front, last);
      assert Names([]) == {};
    }
  }

  // materializeMapping

  /** The effective entries of a mapping, or None if it reports an error. `seen`
      are the nodes on the way here. */
  function Materialized(h: Heap, n: Id, seen: set<Id>): Option<seq<Entry>>
    requires Closed(h) && n in h && seen <= h.Keys
    decreases |h.Keys - seen|, 0
  {
    if n in seen then None
    else
      Shrinks(h.Keys, seen, n);
      if h[n].kind.Alias? then Materialized(h, h[n].target, seen + {n})
      else if !h[n].kind.Mapping? then None
      else
        var content := h[n].content;
        MergesIn(h, content, |content| / 2);
        PartsIn(h, Merges(h, content, |content| / 2));
        MergedInto(h, Own(h, content, |content| / 2), Parts(h, Merges(h, content, |content| / 2)), seen + {n})
  }

  function MergedInto(h: Heap, out: seq<Entry>, parts: seq<Id>, seen: set<Id>): Option<seq<Entry>>
    requires Closed(h) && AllIn(h, parts) && seen <= h.Keys
    decreases |h.Keys - seen|, |parts| + 1
  {
    if parts == [] then Some(out)
    else
      match MergedInto(h, out, parts[..|parts| - 1], seen)
      case None => None
      case Some(front) =>
        match Materialized(h, parts[|parts| - 1], seen)
        case None => None
        case Some(m) => Some(Absorb(front, m))
  }

  lemma Shrinks(all: set<Id>, seen: set<Id>, n: Id)
    requires n in all && n !in seen
    ensures |all - (seen + {n})| < |all - seen|
  {
    assert all - seen == (all - (seen + {n})) + {n};
  }

  lemma {:induction false} MergesIn(h: Heap, content: seq<Id>, i: nat)
    requires 2 * i <= |content| && AllIn(h, content)
    ensures AllIn(h, Merges(h, content, i))
    decreases i
  {
    if i > 0 {
      MergesIn(h, content, i - 1);
    }
  }

  lemma {:induction false} PartsIn(h: Heap, merges: seq<Id>)
    requires Closed(h) && AllIn(h, merges)
    ensures AllIn(h, Parts(h, merges))
    decreases |merges|
  {
    if merges != [] {
      PartsIn(h, merges[..|merges| - 1]);
    }
  }

  // walkYAMLMapping

  /** The names already visited are those of `out`. */
  datatype Walked = Walked(visited: set<Id>, out: seq<Entry>)

  function Walk(h: Heap, n: Id, w: Walked): (r: Walked)
    requires Closed(h) && n in h && w.visited <= h.Keys
    ensures w.visited <= r.visited <= h.Keys
    decreases |h.Keys - w.visited|, 0
  {
    if n in w.visited then w
    else
      Shrinks(h.Keys, w.visited, n);
      var entered := w.(visited := w.visited + {n});
      if h[n].kind.Alias? then Walk(h, h[n].target, entered)
      else if h[n].kind.Sequence? then WalkAll(h, h[n].content, entered)
      else if h[n].kind.Mapping? then
        var content := h[n].content;
        MergesIn(h, content, |content| / 2);
        var merges := Merges(h, content, |content| / 2);
        var visited := entered.(out := Absorb(w.out, Own(h, content, |content| / 2)));
        if merges == [] then visited else Walk(h, merges[|merges| - 1], visited)
      else entered
  }

  function WalkAll(h: Heap, items: seq<Id>, w: Walked): (r: Walked)
    requires Closed(h) && AllIn(h, items) && w.visited <= h.Keys
    ensures w.visited <= r.visited <= h.Keys
    decreases |h.Keys - w.visited|, |items| + 1
  {
    if items == [] then w
    else
      var front := WalkAll(h, items[..|items| - 1], w);
      Fewer(h.Keys, w.visited, front.visited);
      Walk(h, items[|items| - 1], front)
  }

  lemma Fewer(all: set<Id>, a: set<Id>, b: set<Id>)
    requires a <= b
    ensures |all - b| <= |all - a|
  {
    assert all - a == (all - b) + (all * b - a);
  }

  // Both agree

  /** No mapping has two merge keys. */
  predicate OneMerge(h: Heap)
    requires Closed(h)
  {
    forall n <- h :: h[n].kind.Mapping? ==> |Merges(h, h[n].content, |h[n].content| / 2)| <= 1
  }

  lemma {:induction false} MaterializedShorter(h: Heap, n: Id, seen: set<Id>, fewer: set<Id>)
    requires Closed(h) && n in h && fewer <= seen <= h.Keys && Materialized(h, n, seen).Some?
    ensures Materialized(h, n, fewer) == Materialized(h, n, seen)
    decreases |h.Keys - seen|, 0
  {
    Shrinks(h.Keys, seen, n);
    if h[n].kind.Alias? {
      MaterializedShorter(h, h[n].target, seen + {n}, fewer + {n});
    } else {
      var content := h[n].content;
      MergesIn(h, content, |content| / 2);
      var merges := Merges(h, content, |content| / 2);
      PartsIn(h, merges);
      MergedShorter(h, Own(h, content, |content| / 2), Parts(h, merges), seen + {n}, fewer + {n});
    }
  }

  lemma {:induction false} MergedShorter(h: Heap, out: seq<Entry>, parts: seq<Id>, seen: set<Id>, fewer: set<Id>)
    requires Closed(h) && AllIn(h, parts) && fewer <= seen <= h.Keys && MergedInto(h, out, parts, seen).Some?
    ensures MergedInto(h, out, parts, fewer) == MergedInto(h, out, parts, seen)
    decreases |h.Keys - seen|, |parts| + 1
  {
    if parts != [] {
      MergedShorter(h, out, parts[..|parts| - 1], seen, fewer);
      MaterializedShorter(h, parts[|parts| - 1], seen, fewer);
    }
  }

  /** The names a node contributes, once it has been walked in full, are all taken. */
  ghost predicate Taken(h: Heap, n: Id, names: set<string>)
    requires Closed(h) && n in h
  {
    var m := Materialized(h, n, {});
    m.Some? ==> Names(m.value) <= names
  }

  ghost predicate AllTaken(h: Heap, parts: seq<Id>, names: set<string>)
    requires Closed(h) && AllIn(h, parts)
  {
    forall i :: 0 <= i < |parts| ==> Taken(h, parts[i], names)
  }

  /** A visited node is on the way here, or everything it can add is there. `open`
      are the sequences on the way. */
  ghost predicate Covered(h: Heap, v: Id, seen: set<Id>, open: set<Id>, names: set<string>)
    requires Closed(h) && v in h
  {
    if h[v].kind.Sequence? then v in open || AllTaken(h, h[v].content, names) else v in seen || Taken(h, v, names)
  }

  ghost predicate AllCovered(h: Heap, w: Walked, seen: set<Id>, open: set<Id>)
    requires Closed(h) && w.visited <= h.Keys
  {
    forall v <- w.visited :: Covered(h, v, seen, open, Names(w.out))
  }

  /** A sequence is on the way through one of its items. */
  ghost predicate OpenOK(h: Heap, open: set<Id>, seen: set<Id>) {
    forall s <- open :: s in h && exists i :: 0 <= i < |h[s].content| && h[s].content[i] in seen
  }

  ghost predicate Succeeds(h: Heap, n: Id, seen: set<Id>) {
    Closed(h) && OneMerge(h) && n in h && seen <= h.Keys && Materialized(h, n, seen).Some?
  }

  /** Walking a node adds exactly its effective entries that are new. Skipping a
      node that was visited before is sound: all it could add is there already. */
  lemma {:induction false} WalkAgrees(h: Heap, n: Id, seen: set<Id>, open: set<Id>, w: Walked)
    requires Succeeds(h, n, seen) && w.visited <= h.Keys
    requires AllCovered(h, w, seen, open) && OpenOK(h, open, seen + {n})
    ensures Walk(h, n, w).out == Absorb(w.out, Materialized(h, n, seen).value)
    ensures AllCovered(h, Walk(h, n, w), seen, open)
    decreases |h.Keys - seen|, 1
  {
    hide Absorb, MergedInto, DistinctNames, Names, Own, Parts;
    var m := Materialized(h, n, seen).value;
    MaterializedShorter(h, n, seen, {});
    AbsorbNames(w.out, m);
    if n in w.visited {
      assert Taken(h, n, Names(w.out));
      AbsorbNothing(w.out, m);
    } else {
      Shrinks(h.Keys, seen, n);
      var entered := w.(visited := w.visited + {n});
      assert AllCovered(h, entered, seen + {n}, open);
      if h[n].kind.Alias? {
        OpenMore(h, open, seen + {n}, h[n].target);
        WalkAgrees(h, h[n].target, seen + {n}, open, entered);
      } else {
        WalkMapping(h, n, seen, open, w);
      }
      Closing(h, n, seen, open, Walk(h, n, w));
    }
  }

  lemma OpenMore(h: Heap, open: set<Id>, seen: set<Id>, n: Id)
    requires OpenOK(h, open, seen)
    ensures OpenOK(h, open, seen + {n})
  {
  }

  /** A node that was just walked in full is covered by what it added. */
  lemma Closing(h: Heap, n: Id, seen: set<Id>, open: set<Id>, w: Walked)
    requires Closed(h) && w.visited <= h.Keys && n in h && !h[n].kind.Sequence?
    requires AllCovered(h, w, seen + {n}, open) && Taken(h, n, Names(w.out))
    ensures AllCovered(h, w, seen, open)
  {
    hide Taken, AllTaken;
    forall v | v in w.visited
      ensures Covered(h, v, seen, open, Names(w.out))
    {
      assert Covered(h, v, seen + {n}, open, Names(w.out));
    }
  }

  lemma {:induction false} WalkMapping(h: Heap, n: Id, seen: set<Id>, open: set<Id>, w: Walked)
    requires Succeeds(h, n, seen) && h[n].kind.Mapping? && w.visited <= h.Keys && n !in w.visited
    requires AllCovered(h, w, seen, open) && OpenOK(h, open, seen + {n})
    ensures Walk(h, n, w).out == Absorb(w.out, Materialized(h, n, seen).value)
    ensures AllCovered(h, Walk(h, n, w), seen + {n}, open)
    decreases |h.Keys - seen|, 0
  {
    hide DistinctNames, Names, Own, Merges;
    Shrinks(h.Keys, seen, n);
    var content := h[n].content;
    var own := Own(h, content, |content| / 2);
    MergesIn(h, content, |content| / 2);
    var merges := Merges(h, content, |content| / 2);
    var visited := Walked(w.visited + {n}, Absorb(w.out, own));
    AbsorbNames(w.out, own);
    assert AllCovered(h, visited, seen + {n}, open);
    if merges == [] {
      assert Parts(h, merges) == [];
    } else {
      var merge := merges[0];
      assert merges == [merge] && merges[..0] == [];
      assert Parts(h, merges) == PartsOf(h, merge);
      if h[merge].kind.Sequence? {
        WalkMergeSequence(h, merge, own, w.out, seen + {n}, open, visited);
      } else {
        PartsSucceed(h, own, [merge], seen + {n});
        assert [merge][0] == merge && [merge][..0] == [];
        assert MergedInto(h, own, [merge], seen + {n}) == Some(Absorb(own, Materialized(h, merge, seen + {n}).value));
        OpenMore(h, open, seen + {n}, merge);
        WalkAgrees(h, merge, seen + {n}, open, visited);
        AbsorbAssociative(w.out, own, Materialized(h, merge, seen + {n}).value);
      }
    }
  }

  /** A merge sequence: visited before, it is covered; otherwise its items are
      walked one after the other. */
  lemma {:induction false} WalkMergeSequence(h: Heap, s: Id, own: seq<Entry>, before: seq<Entry>, seen: set<Id>,
                                             open: set<Id>, w: Walked)
    requires Closed(h) && OneMerge(h) && s in h && h[s].kind.Sequence? && seen <= h.Keys && w.visited <= h.Keys
    requires MergedInto(h, own, h[s].content, seen).Some? && w.out == Absorb(before, own)
    requires AllCovered(h, w, seen, open) && OpenOK(h, open, seen)
    ensures Walk(h, s, w).out == Absorb(before, MergedInto(h, own, h[s].content, seen).value)
    ensures AllCovered(h, Walk(h, s, w), seen, open)
    decreases |h.Keys - seen|, |h[s].content| + 3
  {
    var parts := h[s].content;
    PartsSucceed(h, own, parts, seen);
    if s in w.visited {
      assert s !in open;
      MergedCovered(h, before, own, parts, seen);
    } else {
      Shrinks(h.Keys, w.visited, s);
      var entered := w.(visited := w.visited + {s});
      assert AllCovered(h, entered, seen, open + {s});
      WalkItems(h, s, parts, own, before, seen, open, entered);
    }
  }

  lemma {:induction false} PartsSucceed(h: Heap, out: seq<Entry>, parts: seq<Id>, seen: set<Id>)
    requires Closed(h) && AllIn(h, parts) && seen <= h.Keys && MergedInto(h, out, parts, seen).Some?
    ensures forall i :: 0 <= i < |parts| ==>
              && Materialized(h, parts[i], seen).Some? && parts[i] !in seen
              && Materialized(h, parts[i], {}) == Materialized(h, parts[i], seen)
    decreases |parts|
  {
    if parts != [] {
      PartsSucceed(h, out, parts[..|parts| - 1], seen);
      MaterializedShorter(h, parts[|parts| - 1], seen, {});
    }
  }

  lemma {:induction false} MergedCovered(h: Heap, before: seq<Entry>, own: seq<Entry>, parts: seq<Id>, seen: set<Id>)
    requires Closed(h) && AllIn(h, parts) && seen <= h.Keys && MergedInto(h, own, parts, seen).Some?
    requires AllTaken(h, parts, Names(Absorb(before, own)))
    ensures Absorb(before, MergedInto(h, own, parts, seen).value) == Absorb(before, own)
    decreases |parts|
  {
    if parts != [] {
      var front, last := parts[..|parts| - 1], parts[|parts| - 1];
      MergedCovered(h, before, own, front, seen);
      MaterializedShorter(h, last, seen, {});
      var m := Materialized(h, last, seen).value;
      assert Taken(h, last, Names(Absorb(before, own)));
      AbsorbAssociative(before, MergedInto(h, own, front, seen).value, m);
      AbsorbNothing(Absorb(before, own), m);
    }
  }

  lemma {:induction false} WalkItems(h: Heap, s: Id, items: seq<Id>, own: seq<Entry>, before: seq<Entry>,
                                     seen: set<Id>, open: set<Id>, w: Walked)
    requires Closed(h) && OneMerge(h) && s in h && seen <= h.Keys && w.visited <= h.Keys
    requires AllIn(h, items) && forall i :: 0 <= i < |items| ==> items[i] in h[s].content
    requires MergedInto(h, own, items, seen).Some? && w.out == Absorb(before, own)
    requires AllCovered(h, w, seen, open + {s}) && OpenOK(h, open, seen)
    ensures WalkAll(h, items, w).out == Absorb(before, MergedInto(h, own, items, seen).value)
    ensures AllCovered(h, WalkAll(h, items, w), seen, open + {s})
    ensures AllTaken(h, items, Names(WalkAll(h, items, w).out))
    decreases |h.Keys - seen|, |items| + 2
  {
    if items != [] {
      var front, last := items[..|items| - 1], items[|items| - 1];
      WalkItems(h, s, front, own, before, seen, open, w);
      var walked := WalkAll(h, front, w);
      var m := Materialized(h, last, seen).value;
      OpenItem(h, s, open, seen, last);
      WalkAgrees(h, last, seen, open + {s}, walked);
      AbsorbAssociative(before, MergedInto(h, own, front, seen).value, m);
      AbsorbNames(walked.out, m);
      MaterializedShorter(h, last, seen, {});
      AllTakenMore(h, front, last, Names(walked.out), Names(Absorb(walked.out, m)));
      assert items == front + [last];
    }
  }

  lemma AllTakenMore(h: Heap, front: seq<Id>, last: Id, names: set<string>, more: set<string>)
    requires Closed(h) && AllIn(h, front) && last in h && names <= more
    requires AllTaken(h, front, names) && Taken(h, last, more)
    ensures AllTaken(h, front + [last], more)
  {
    hide Materialized;
    forall i | 0 <= i < |front + [last]|
      ensures Taken(h, (front + [last])[i], more)
    {
      if i < |front| {
        assert Taken(h, front[i], names);
      }
    }
  }

  lemma OpenItem(h: Heap, s: Id, open: set<Id>, seen: set<Id>, item: Id)
    requires OpenOK(h, open, seen) && s in h && item in h[s].content
    ensures OpenOK(h, open + {s}, seen + {item})
  {
  }

  /** The mapping a chain of aliases ends in. */
  function Resolved(h: Heap, n: Id, seen: set<Id>): Id
    requires Closed(h) && n in h && seen <= h.Keys
    ensures Resolved(h, n, seen) in h
    decreases |h.Keys - seen|
  {
    if n in seen || !h[n].kind.Alias? then n
    else
      Shrinks(h.Keys, seen, n);
      Resolved(h, h[n].target, seen + {n})
  }

  function Explicit(h: Heap, n: Id): seq<Entry>
    requires Closed(h) && n in h
  {
    Own(h, h[n].content, |h[n].content| / 2)
  }

  lemma {:induction false} MergedDistinct(h: Heap, out: seq<Entry>, parts: seq<Id>, seen: set<Id>)
    requires Closed(h) && AllIn(h, parts) && seen <= h.Keys && MergedInto(h, out, parts, seen).Some?
    ensures DistinctNames(MergedInto(h, out, parts, seen).value) <==> DistinctNames(out)
    decreases |parts|
  {
    if parts != [] {
      MergedDistinct(h, out, parts[..|parts| - 1], seen);
      AbsorbNames(MergedInto(h, out, parts[..|parts| - 1], seen).value,
                  Materialized(h, parts[|parts| - 1], seen).value);
    }
  }

  lemma {:induction false} MaterializedDistinct(h: Heap, n: Id, seen: set<Id>)
    requires Closed(h) && n in h && seen <= h.Keys && Materialized(h, n, seen).Some?
    ensures DistinctNames(Materialized(h, n, seen).value) <==> DistinctNames(Explicit(h, Resolved(h, n, seen)))
    decreases |h.Keys - seen|
  {
    Shrinks(h.Keys, seen, n);
    if h[n].kind.Alias? {
      MaterializedDistinct(h, h[n].target, seen + {n});
    } else {
      var content := h[n].content;
      MergesIn(h, content, |content| / 2);
      PartsIn(h, Merges(h, content, |content| / 2));
      MergedDistinct(h, Explicit(h, n), Parts(h, Merges(h, content, |content| / 2)), seen + {n});
    }
  }

  /** The two readings of merge keys agree. When the strict one succeeds, the
      lenient walk visits exactly its entries, in the same order, each name once.
      The results are equal if and only if the mapping repeats no explicit key,
      which is what removing duplicate keys ensures. */
  lemma MergesAgree(h: Heap, n: Id)
    requires Succeeds(h, n, {})
    ensures var m := Materialized(h, n, {}).value;
            var visited := Walk(h, n, Walked({}, [])).out;
            && DistinctNames(visited) && Names(visited) == Names(m)
            && (visited == m <==> DistinctNames(Explicit(h, Resolved(h, n, {}))))
  {
    var m := Materialized(h, n, {}).value;
    WalkAgrees(h, n, {}, {}, Walked({}, []));
    AbsorbNames([], m);
    AbsorbDistinct(m);
    MaterializedDistinct(h, n, {});
  }

  function MergeValues(h: Heap, n: Id): (r: seq<Id>)
    requires Closed(h) && n in h
    ensures AllIn(h, r)
  {
    MergesIn(h, h[n].content, |h[n].content| / 2);
    Merges(h, h[n].content, |h[n].content| / 2)
  }

  lemma WalkStep(h: Heap, n: Id, w: Walked)
    requires Closed(h) && n in h && h[n].kind.Mapping? && n !in w.visited && w.visited <= h.Keys
    ensures var merges := MergeValues(h, n);
            var visited := Walked(w.visited + {n}, Absorb(w.out, Explicit(h, n)));
            Walk(h, n, w) == if merges == [] then visited else Walk(h, merges[|merges| - 1], visited)
  {
  }

  lemma MaterializedStep(h: Heap, n: Id, seen: set<Id>)
    requires Closed(h) && n in h && h[n].kind.Mapping? && n !in seen && seen <= h.Keys
    ensures AllIn(h, Parts(h, MergeValues(h, n)))
    ensures Materialized(h, n, seen) == MergedInto(h, Explicit(h, n), Parts(h, MergeValues(h, n)), seen + {n})
  {
    PartsIn(h, MergeValues(h, n));
  }
}
