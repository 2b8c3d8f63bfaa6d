/** Removing duplicate mapping keys from a document (config/document.go:41-85). */
module YamlDedupe {
  import opened YamlMerge

  /** The pairs that stay: merge keys, and the first of each name. */
  function Kept(h: Heap, content: seq<Id>, i: nat): seq<Id>
    requires 2 * i <= |content| && AllIn(h, content)
  {
    if i == 0 then []
    else
      var key := content[2 * i - 2];
      Kept(h, content, i - 1) +
      if h[key].tag == MERGE || h[key].value !in Names(Own(h, content, i - 1)) then [key, content[2 * i - 1]] else []
  }

  lemma {:induction false} PrefixOwn(h: Heap, content: seq<Id>, more: seq<Id>, i: nat)
    requires AllIn(h, content) && AllIn(h, content + more) && 2 * i <= |content|
    ensures Own(h, content + more, i) == Own(h, content, i) && Merges(h, content + more, i) == Merges(h, content, i)
    decreases i
  {
    if i > 0 {
      PrefixOwn(h, content, more, i - 1);
    }
  }

  lemma PairPushed(h: Heap, front: seq<Id>, key: Id, value: Id)
    requires AllIn(h, front) && key in h && value in h && |front| % 2 == 0
    ensures var kept := front + [key, value];
            && AllIn(h, kept) && |kept| % 2 == 0
            && Own(h, kept, |kept| / 2) == Own(h, front, |front| / 2) + (if h[key].tag == MERGE then []
                                                                         else [Entry(h[key].value, key, value)])
            && Merges(h, kept, |kept| / 2) == Merges(h, front, |front| / 2) + (if h[key].tag == MERGE then [value]
                                                                               else [])
  {
    var k := |front| / 2;
    var kept := front + [key, value];
    assert |kept| / 2 == k + 1 && kept[2 * k] == key && kept[2 * k + 1] == value;
    PrefixOwn(h, front, [key, value], k);
  }

  /** What removing duplicates does: explicit entries become distinct, the first of
      each name in the same order, and merges stay. */
  lemma {:induction false} KeptOwn(h: Heap, content: seq<Id>, i: nat)
    requires AllIn(h, content) && 2 * i <= |content|
    ensures var kept := Kept(h, content, i);
            && AllIn(h, kept) && |kept| % 2 == 0
            && Own(h, kept, |kept| / 2) == Absorb([], Own(h, content, i))
            && Merges(h, kept, |kept| / 2) == Merges(h, content, i)
    decreases i
  {
    if i == 0 {
      assert AllIn(h, Kept(h, content, 0)) && Own(h, [], 0) == [] && Merges(h, [], 0) == [] && Absorb([], []) == [];
    } else {
      KeptOwn(h, content, i - 1);
      KeptOwnStep(h, content, i);
    }
  }

  lemma KeptOwnStep(h: Heap, content: seq<Id>, i: nat)
    requires AllIn(h, content) && 0 < 2 * i <= |content|
    requires var kept := Kept(h, content, i - 1);
             && AllIn(h, kept) && |kept| % 2 == 0
             && Own(h, kept, |kept| / 2) == Absorb([], Own(h, content, i - 1))
             && Merges(h, kept, |kept| / 2) == Merges(h, content, i - 1)
    ensures var kept := Kept(h, content, i);
            && AllIn(h, kept) && |kept| % 2 == 0
            && Own(h, kept, |kept| / 2) == Absorb([], Own(h, content, i))
            && Merges(h, kept, |kept| / 2) == Merges(h, content, i)
  {
    hide Own, Merges, Absorb, Names, Kept;
    var key := content[2 * i - 2];
    var own, e := Own(h, content, i - 1), PairAt(h, content, i - 1);
    KeptStep(h, content, i);
    PairPushed(h, Kept(h, content, i - 1), key, content[2 * i - 1]);
    SameNamesAbsorbed(own);
    AbsorbOne([], own, e);
    OwnStep(h, content, i);
    assert 2 * (i - 1) == 2 * i - 2 && e == Entry(h[key].value, key, content[2 * i - 1]);
    assert own + [] == own && Absorb([], own) + [] == Absorb([], own);
  }

  lemma SameNamesAbsorbed(own: seq<Entry>)
    ensures Names(Absorb([], own)) == Names(own)
  {
    AbsorbNames([], own);
    assert Names([]) == {};
  }

  lemma KeptStep(h: Heap, content: seq<Id>, i: nat)
    requires AllIn(h, content) && 0 < 2 * i <= |content|
    ensures var key := content[2 * i - 2];
            && key in h && content[2 * i - 1] in h
            && Kept(h, content, i) ==
               if h[key].tag == MERGE || h[key].value !in Names(Own(h, content, i - 1))
               then Kept(h, content, i - 1) + [key, content[2 * i - 1]] else Kept(h, content, i - 1)
  {
    assert Kept(h, content, i - 1) + [] == Kept(h, content, i - 1);
  }

  lemma AbsorbOne(out: seq<Entry>, entries: seq<Entry>, e: Entry)
    ensures Absorb(out, entries + [e]) ==
            if e.name in Names(Absorb(out, entries)) then Absorb(out, entries) else Absorb(out, entries) + [e]
  {
    assert (entries + [e])[..|entries|] == entries;
  }

  lemma OwnStep(h: Heap, content: seq<Id>, i: nat)
    requires AllIn(h, content) && 0 < 2 * i <= |content|
    ensures var merge := h[content[2 * i - 2]].tag == MERGE;
            && Own(h, content, i) == Own(h, content, i - 1) + (if merge then [] else [PairAt(h, content, i - 1)])
            && Merges(h, content, i) == Merges(h, content, i - 1) + (if merge then [content[2 * i - 1]] else [])
  {
  }

  function Clean(h: Heap, v: Id): Node
    requires Closed(h) && v in h
  {
    if h[v].kind.Mapping? then h[v].(content := Kept(h, h[v].content, |h[v].content| / 2)) else h[v]
  }

  /** Between `before` and `after` exactly the nodes of `cleaned` were cleaned. */
  ghost predicate Cleaned(before: Heap, after: Heap, cleaned: set<Id>) {
    && Closed(before) && Closed(after) && after.Keys == before.Keys
    && forall v <- before :: after[v] == if v in cleaned then Clean(before, v) else before[v]
  }

  lemma {:induction false} KeptSame(h: Heap, h': Heap, content: seq<Id>, i: nat)
    requires AllIn(h, content) && AllIn(h', content) && 2 * i <= |content|
    requires forall j :: 0 <= j < |content| ==>
               h'[content[j]].tag == h[content[j]].tag && h'[content[j]].value == h[content[j]].value
    ensures Kept(h', content, i) == Kept(h, content, i) && Own(h', content, i) == Own(h, content, i)
    decreases i
  {
    if i > 0 {
      KeptSame(h, h', content, i - 1);
    }
  }

  lemma CleanedTwice(a: Heap, b: Heap, c: Heap, first: set<Id>, second: set<Id>)
    requires Cleaned(a, b, first) && Cleaned(b, c, second) && first !! second
    ensures Cleaned(a, c, first + second)
  {
    forall v | v in a
      ensures c[v] == if v in first + second then Clean(a, v) else a[v]
    {
      if v in second {
        KeptSame(a, b, a[v].content, |a[v].content| / 2);
      }
    }
  }

  /** The recursion follows children of documents and sequences, and the values of
      the pairs of a mapping that stay; it does not follow aliases. */
  ghost predicate Followed(h: Heap, v: Id, visited: set<Id>)
    requires v in h
  {
    match h[v].kind
    case Document => forall i :: 0 <= i < |h[v].content| ==> h[v].content[i] in visited
    case Sequence => forall i :: 0 <= i < |h[v].content| ==> h[v].content[i] in visited
    case Mapping => forall i :: 0 <= i < |h[v].content| / 2 ==> h[v].content[2 * i + 1] in visited
    case _ => true
  }

  /** A traversal that had visited `visited` cleaned and followed everything since. */
  ghost predicate Traversed(before: Heap, after: Heap, visited: set<Id>, visited': set<Id>) {
    && visited <= visited' <= before.Keys && Cleaned(before, after, visited' - visited)
    && forall v <- visited' - visited :: Followed(after, v, visited')
  }

  lemma KeptNothing(h: Heap, content: seq<Id>)
    requires AllIn(h, content)
    ensures Kept(h, content, 0) == [] && Names(Own(h, content, 0)) == {}
  {
  }

  lemma KeptNext(h: Heap, content: seq<Id>, i: nat)
    requires AllIn(h, content) && 2 * i + 1 < |content|
    ensures var key, value := content[2 * i], content[2 * i + 1];
            var own := Own(h, content, i);
            && (h[key].tag == MERGE || h[key].value !in Names(own) ==>
                Kept(h, content, i + 1) == Kept(h, content, i) + [key, value])
            && (h[key].tag != MERGE && h[key].value in Names(own) ==> Kept(h, content, i + 1) == Kept(h, content, i))
            && Names(Own(h, content, i + 1)) == Names(own) + (if h[key].tag == MERGE then {} else {h[key].value})
  {
    assert 2 * (i + 1) - 2 == 2 * i && 2 * (i + 1) - 1 == 2 * i + 1;
    var own, e := Own(h, content, i), PairAt(h, content, i);
    hide Names;
    NamesPush(own, e);
    assert own + [] == own && Kept(h, content, i) + [] == Kept(h, content, i);
  }

  /** Cleaning changes no key. */
  lemma SameKey(before: Heap, after: Heap, cleaned: set<Id>, key: Id)
    requires Cleaned(before, after, cleaned) && key in before
    ensures after[key].tag == before[key].tag && after[key].value == before[key].value
            && after[key].kind == before[key].kind
  {
    hide Kept;
  }

  lemma NothingTraversed(h: Heap, visited: set<Id>)
    requires Closed(h) && visited <= h.Keys
    ensures Traversed(h, h, visited, visited)
  {
  }

  lemma Meaning(before: Heap, after: Heap, visited: set<Id>, visited': set<Id>)
    requires Traversed(before, after, visited, visited')
    ensures Closed(after) && after.Keys == before.Keys && visited <= visited' <= before.Keys
    ensures Cleaned(before, after, visited' - visited)
    ensures forall v <- visited :: after[v] == before[v]
  {
  }

  lemma ThenTraversed(before: Heap, middle: Heap, after: Heap, visited: set<Id>, reached: set<Id>, visited': set<Id>)
    requires Traversed(before, middle, visited, reached) && Traversed(middle, after, reached, visited')
    ensures Traversed(before, after, visited, visited')
  {
    hide Clean;
    CleanedTwice(before, middle, after, reached - visited, visited' - reached);
    assert (reached - visited) + (visited' - reached) == visited' - visited;
    forall v | v in visited' - visited
      ensures Followed(after, v, visited')
    {
      if v in reached {
        assert after[v] == middle[v] && Followed(middle, v, reached);
      }
    }
  }

  lemma ChildrenTraversed(before: Heap, after: Heap, n: Id, visited: set<Id>, visited': set<Id>)
    requires Traversed(before, after, visited + {n}, visited') && n !in visited
    requires n in before && (before[n].kind.Document? || before[n].kind.Sequence?)
    requires forall i :: 0 <= i < |before[n].content| ==> before[n].content[i] in visited'
    ensures Traversed(before, after, visited, visited')
  {
    assert visited' - visited == (visited' - (visited + {n})) + {n};
    assert after[n] == before[n] == Clean(before, n);
  }

  lemma PairsTraversed(before: Heap, walked: Heap, after: Heap, n: Id, visited: set<Id>, visited': set<Id>,
                       filtered: seq<Id>)
    requires Traversed(before, walked, visited + {n}, visited') && n !in visited
    requires n in before && before[n].kind.Mapping?
    requires filtered == Kept(before, before[n].content, |before[n].content| / 2) && AllIn(before, filtered)
             && |filtered| % 2 == 0
    requires forall j :: 0 <= j < |filtered| / 2 ==> filtered[2 * j + 1] in visited'
    requires n in walked && after == walked[n := walked[n].(content := filtered)]
    ensures Traversed(before, after, visited, visited')
  {
    hide Kept;
    assert visited' - visited == (visited' - (visited + {n})) + {n};
    assert walked[n] == before[n];
    forall v | v in visited' - visited && v != n
      ensures Followed(after, v, visited')
    {
      assert after[v] == walked[v] && Followed(walked, v, visited');
    }
  }

  /** After duplicates were removed, a mapping keeps its merges and the first entry
      of each name, in order, and repeats no explicit key; so both readings of its
      merge keys give the same entries. */
  lemma DedupedAgree(before: Heap, after: Heap, cleaned: set<Id>, n: Id)
    requires Cleaned(before, after, cleaned) && n in cleaned && n in before && before[n].kind.Mapping?
    ensures Explicit(after, n) == Absorb([], Explicit(before, n)) && DistinctNames(Explicit(after, n))
    ensures MergeValues(after, n) == MergeValues(before, n)
    ensures Succeeds(after, n, {}) ==> Walk(after, n, Walked({}, [])).out == Materialized(after, n, {}).value
  {
    var content := before[n].content;
    var kept := Kept(before, content, |content| / 2);
    KeptOwn(before, content, |content| / 2);
    forall j | 0 <= j < |kept|
      ensures after[kept[j]].tag == before[kept[j]].tag && after[kept[j]].value == before[kept[j]].value
    {
      SameKey(before, after, cleaned, kept[j]);
    }
    KeptSame(before, after, kept, |kept| / 2);
    SameMerges(before, after, kept, |kept| / 2);
    AbsorbNames([], Explicit(before, n));
    if Succeeds(after, n, {}) {
      MergesAgree(after, n);
    }
  }

  lemma {:induction false} SameMerges(h: Heap, h': Heap, content: seq<Id>, i: nat)
    requires AllIn(h, content) && AllIn(h', content) && 2 * i <= |content|
    requires forall j :: 0 <= j < |content| ==> h'[content[j]].tag == h[content[j]].tag
    ensures Merges(h', content, i) == Merges(h, content, i)
    decreases i
  {
    if i > 0 {
      SameMerges(h, h', content, i - 1);
    }
  }
}
