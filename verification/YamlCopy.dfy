/** Copying a configuration document into independent nodes
    (internal/gateway/config_store.go:263-291). */
module YamlCopy {
  import opened YamlMerge

  // copyConfigurationNodes

  datatype Tree = Tree(kind: Kind, tag: string, value: string, anchor: string, children: seq<Tree>)

  /** The copy of a node, or None if an alias or child leads back to a node on the
      way here. An alias is replaced by a copy of its target. */
  function Copied(h: Heap, n: Id, active: set<Id>): Option<Tree>
    requires Closed(h) && n in h && active <= h.Keys
    decreases |h.Keys - active|, 0
  {
    if n in active then None
    else
      Shrinks(h.Keys, active, n);
      if h[n].kind.Alias? then
        match Copied(h, h[n].target, active + {n})
        case None => None
        case Some(t) => Some(t.(anchor := ""))
      else
        match CopiedAll(h, h[n].content, active + {n})
        case None => None
        case Some(children) => Some(Tree(h[n].kind, h[n].tag, h[n].value, h[n].anchor, children))
  }

  function CopiedAll(h: Heap, items: seq<Id>, active: set<Id>): (r: Option<seq<Tree>>)
    requires Closed(h) && AllIn(h, items) && active <= h.Keys
    ensures r.Some? ==> |r.value| == |items|
    decreases |h.Keys - active|, |items| + 1
  {
    if items == [] then Some([])
    else
      match CopiedAll(h, items[..|items| - 1], active)
      case None => None
      case Some(front) =>
        match Copied(h, items[|items| - 1], active)
        case None => None
        case Some(t) => Some(front + [t])
  }

  // It fails exactly on cycles

  predicate Edge(h: Heap, a: Id, b: Id)
    requires a in h
  {
    if h[a].kind.Alias? then b == h[a].target else b in h[a].content
  }

  ghost predicate Path(h: Heap, p: seq<Id>) {
    && p != [] && (forall i :: 0 <= i < |p| ==> p[i] in h)
    && forall i :: 0 <= i < |p| - 1 ==> Edge(h, p[i], p[i + 1])
  }

  /** The path ends where it has been before, or in `active`. */
  ghost predicate Returns(p: seq<Id>, active: set<Id>)
    requires p != []
  {
    p[|p| - 1] in active || exists i :: 0 <= i < |p| - 1 && p[i] == p[|p| - 1]
  }

  lemma {:induction false} AllFail(h: Heap, items: seq<Id>, active: set<Id>, i: nat)
    requires Closed(h) && AllIn(h, items) && active <= h.Keys && i < |items| && Copied(h, items[i], active).None?
    ensures CopiedAll(h, items, active).None?
    decreases |items|
  {
    if i < |items| - 1 {
      AllFail(h, items[..|items| - 1], active, i);
    }
  }

  lemma {:induction false} SomeFails(h: Heap, items: seq<Id>, active: set<Id>) returns (i: nat)
    requires Closed(h) && AllIn(h, items) && active <= h.Keys && CopiedAll(h, items, active).None?
    ensures i < |items| && Copied(h, items[i], active).None?
    decreases |items|
  {
    if CopiedAll(h, items[..|items| - 1], active).None? {
      i := SomeFails(h, items[..|items| - 1], active);
    } else {
      i := |items| - 1;
    }
  }

  lemma PathFrom(h: Heap, n: Id, p: seq<Id>, active: set<Id>)
    requires n in h && Path(h, p) && Edge(h, n, p[0]) && Returns(p, active + {n})
    ensures Path(h, [n] + p) && Returns([n] + p, active)
  {
    var q := [n] + p;
    assert q[|q| - 1] == p[|p| - 1];
    if p[|p| - 1] == n {
      assert q[0] == q[|q| - 1];
    } else if p[|p| - 1] !in active {
      var i :| 0 <= i < |p| - 1 && p[i] == p[|p| - 1];
      assert q[i + 1] == q[|q| - 1];
    }
  }

  lemma {:induction false} FailureHasCycle(h: Heap, n: Id, active: set<Id>) returns (p: seq<Id>)
    requires Closed(h) && n in h && active <= h.Keys && Copied(h, n, active).None?
    ensures Path(h, p) && p[0] == n && Returns(p, active)
    decreases |h.Keys - active|
  {
    if n in active {
      p := [n];
    } else {
      Shrinks(h.Keys, active, n);
      var next := h[n].target;
      if !h[n].kind.Alias? {
        var i := SomeFails(h, h[n].content, active + {n});
        next := h[n].content[i];
      }
      var q := FailureHasCycle(h, next, active + {n});
      PathFrom(h, n, q, active);
      p := [n] + q;
    }
  }

  lemma {:induction false} CycleFails(h: Heap, n: Id, active: set<Id>, p: seq<Id>)
    requires Closed(h) && n in h && active <= h.Keys && Path(h, p) && p[0] == n && Returns(p, active)
    ensures Copied(h, n, active).None?
    decreases |p|
  {
    if n !in active {
      Shrinks(h.Keys, active, n);
      var q := p[1..];
      assert q[|q| - 1] == p[|p| - 1];
      if p[|p| - 1] !in active + {n} {
        var i :| 0 <= i < |p| - 1 && p[i] == p[|p| - 1];
        assert q[i - 1] == q[|q| - 1];
      }
      CycleFails(h, q[0], active + {n}, q);
      if !h[n].kind.Alias? {
        var i :| 0 <= i < |h[n].content| && h[n].content[i] == q[0];
        AllFail(h, h[n].content, active + {n}, i);
      }
    }
  }

  /** Copying terminates on every graph, and is refused exactly if some way of
      following children and aliases from the node comes back to where it was. */
  lemma CopyFailsExactlyOnCycles(h: Heap, n: Id)
    requires Closed(h) && n in h
    ensures Copied(h, n, {}).None? <==> exists p: seq<Id> :: Path(h, p) && p[0] == n && Returns(p, {})
  {
    if Copied(h, n, {}).None? {
      var p := FailureHasCycle(h, n, {});
    }
    if p: seq<Id> :| Path(h, p) && p[0] == n && Returns(p, {}) {
      CycleFails(h, n, {}, p);
    }
  }

  // The copy says the same

  ghost predicate Mirrors(h: Heap, n: Id, t: Tree)
    requires Closed(h) && n in h
    decreases t
  {
    var m := Resolved(h, n, {});
    && !h[m].kind.Alias? && t.kind == h[m].kind && t.tag == h[m].tag && t.value == h[m].value
    && t.anchor == (if h[n].kind.Alias? then "" else h[n].anchor)
    && |t.children| == |h[m].content|
    && forall i :: 0 <= i < |t.children| ==> Mirrors(h, h[m].content[i], t.children[i])
  }

  predicate AliasFree(t: Tree) {
    !t.kind.Alias? && forall i :: 0 <= i < |t.children| ==> AliasFree(t.children[i])
  }

  lemma {:induction false} ResolvedShorter(h: Heap, n: Id, seen: set<Id>, fewer: set<Id>)
    requires Closed(h) && n in h && fewer <= seen <= h.Keys && n !in seen && !h[Resolved(h, n, seen)].kind.Alias?
    ensures Resolved(h, n, fewer) == Resolved(h, n, seen)
    decreases |h.Keys - seen|
  {
    if h[n].kind.Alias? {
      Shrinks(h.Keys, seen, n);
      if h[n].target !in seen + {n} {
        ResolvedShorter(h, h[n].target, seen + {n}, fewer + {n});
      }
    }
  }

  lemma {:induction false} CopiedResolves(h: Heap, n: Id, active: set<Id>)
    requires Closed(h) && n in h && active <= h.Keys && Copied(h, n, active).Some?
    ensures !h[Resolved(h, n, active)].kind.Alias?
    decreases |h.Keys - active|
  {
    Shrinks(h.Keys, active, n);
    if h[n].kind.Alias? {
      CopiedResolves(h, h[n].target, active + {n});
    }
  }

  /** What a chain of aliases stands for is read through. */
  lemma ThroughAlias(h: Heap, n: Id)
    requires Closed(h) && n in h && h[n].kind.Alias? && !h[Resolved(h, n, {})].kind.Alias?
    requires !h[Resolved(h, h[n].target, {n})].kind.Alias?
    ensures Resolved(h, n, {}) == Resolved(h, h[n].target, {})
  {
    Shrinks(h.Keys, {}, n);
    assert {} + {n} == {n};
    if h[n].target != n {
      ResolvedShorter(h, h[n].target, {n}, {});
    }
  }

  lemma {:induction false} CopyMirrors(h: Heap, n: Id, active: set<Id>)
    requires Closed(h) && n in h && active <= h.Keys && Copied(h, n, active).Some?
    ensures Mirrors(h, n, Copied(h, n, active).value) && AliasFree(Copied(h, n, active).value)
    decreases |h.Keys - active|, 0
  {
    Shrinks(h.Keys, active, n);
    if h[n].kind.Alias? {
      var target := h[n].target;
      CopyMirrors(h, target, active + {n});
      CopiedResolves(h, n, active);
      ResolvedShorter(h, n, active, {});
      CopiedShorter(h, n, active, {});
      CopiedResolves(h, n, {});
      assert {} + {n} == {n};
      ThroughAlias(h, n);
    } else {
      AllMirror(h, h[n].content, active + {n});
    }
  }

  lemma {:induction false} AllMirror(h: Heap, items: seq<Id>, active: set<Id>)
    requires Closed(h) && AllIn(h, items) && active <= h.Keys && CopiedAll(h, items, active).Some?
    ensures forall i :: 0 <= i < |items| ==>
              Mirrors(h, items[i], CopiedAll(h, items, active).value[i])
                && AliasFree(CopiedAll(h, items, active).value[i])
    decreases |h.Keys - active|, |items| + 1
  {
    if items != [] {
      AllMirror(h, items[..|items| - 1], active);
      CopyMirrors(h, items[|items| - 1], active);
    }
  }

  lemma {:induction false} CopiedShorter(h: Heap, n: Id, active: set<Id>, fewer: set<Id>)
    requires Closed(h) && n in h && fewer <= active <= h.Keys && Copied(h, n, active).Some?
    ensures Copied(h, n, fewer) == Copied(h, n, active)
    decreases |h.Keys - active|, 0
  {
    Shrinks(h.Keys, active, n);
    if h[n].kind.Alias? {
      CopiedShorter(h, h[n].target, active + {n}, fewer + {n});
    } else {
      AllShorter(h, h[n].content, active + {n}, fewer + {n});
    }
  }

  lemma {:induction false} AllShorter(h: Heap, items: seq<Id>, active: set<Id>, fewer: set<Id>)
    requires Closed(h) && AllIn(h, items) && fewer <= active <= h.Keys && CopiedAll(h, items, active).Some?
    ensures CopiedAll(h, items, fewer) == CopiedAll(h, items, active)
    decreases |h.Keys - active|, |items| + 1
  {
    if items != [] {
      AllShorter(h, items[..|items| - 1], active, fewer);
      CopiedShorter(h, items[|items| - 1], active, fewer);
    }
  }

  // A tree laid out in the heap

  function Size(t: Tree): nat
    ensures Size(t) >= 1
  {
    1 + SizeAll(t.children)
  }

  function SizeAll(trees: seq<Tree>): nat {
    if trees == [] then 0 else SizeAll(trees[..|trees| - 1]) + Size(trees[|trees| - 1])
  }

  /** The nodes from `low` to `n` are exactly this tree, each with one parent. */
  predicate Layout(h: Heap, n: Id, t: Tree, low: Id)
    decreases t, 0
  {
    && n == low + SizeAll(t.children) && n in h
    && h[n].kind == t.kind && h[n].tag == t.tag && h[n].value == t.value && h[n].anchor == t.anchor
    && |h[n].content| == |t.children| && LayoutAll(h, h[n].content, t.children, low)
  }

  predicate LayoutAll(h: Heap, ids: seq<Id>, trees: seq<Tree>, low: Id)
    decreases trees, 1
  {
    && |ids| == |trees|
    && (trees == [] ||
        (var k := |trees| - 1;
         && Layout(h, ids[k], trees[k], low + SizeAll(trees[..k]))
         && LayoutAll(h, ids[..k], trees[..k], low)))
  }

  /** A layout depends only on its own nodes. */
  lemma {:induction false} LayoutFrame(h: Heap, h': Heap, n: Id, t: Tree, low: Id)
    requires Layout(h, n, t, low) && forall id :: low <= id <= n && id in h ==> id in h' && h'[id] == h[id]
    ensures Layout(h', n, t, low)
    decreases t, 0
  {
    LayoutAllFrame(h, h', h[n].content, t.children, low);
  }

  lemma {:induction false} LayoutAllFrame(h: Heap, h': Heap, ids: seq<Id>, trees: seq<Tree>, low: Id)
    requires LayoutAll(h, ids, trees, low)
    requires forall id :: low <= id < low + SizeAll(trees) && id in h ==> id in h' && h'[id] == h[id]
    ensures LayoutAll(h', ids, trees, low)
    decreases trees, 1
  {
    if trees != [] {
      var k := |trees| - 1;
      assert SizeAll(trees) == SizeAll(trees[..k]) + Size(trees[k]) && Size(trees[k]) == 1 + SizeAll(trees[k].children);
      LayoutFrame(h, h', ids[k], trees[k], low + SizeAll(trees[..k]));
      LayoutAllFrame(h, h', ids[..k], trees[..k], low);
    }
  }

  lemma {:induction false} SizesBefore(trees: seq<Tree>, i: nat, j: nat)
    requires i < j <= |trees|
    ensures SizeAll(trees[..i]) + Size(trees[i]) <= SizeAll(trees[..j])
    decreases j
  {
    assert trees[..j][..j - 1] == trees[..j - 1];
    if i < j - 1 {
      SizesBefore(trees, i, j - 1);
    } else {
      assert trees[..j][j - 1] == trees[i];
    }
  }

  lemma {:induction false} ChildLayout(h: Heap, ids: seq<Id>, trees: seq<Tree>, low: Id, i: nat)
    requires LayoutAll(h, ids, trees, low) && i < |trees|
    ensures Layout(h, ids[i], trees[i], low + SizeAll(trees[..i]))
    decreases |trees|
  {
    var k := |trees| - 1;
    if i < k {
      ChildLayout(h, ids[..k], trees[..k], low, i);
      assert trees[..k][..i] == trees[..i];
    }
  }

  /** Editing one child leaves every other child as it was: whatever happens to the
      nodes of child `i`, and to nodes outside the tree, child `j` reads the same. */
  lemma EditIsLocal(h: Heap, h': Heap, n: Id, t: Tree, low: Id, i: nat, j: nat)
    requires Layout(h, n, t, low) && i < |t.children| && j < |t.children| && i != j
    requires forall id :: id in h && low <= id < n && !(low + SizeAll(t.children[..i]) <= id <= h[n].content[i]) ==>
               id in h' && h'[id] == h[id]
    ensures Layout(h', h[n].content[j], t.children[j], low + SizeAll(t.children[..j]))
  {
    var ids := h[n].content;
    ChildLayout(h, ids, t.children, low, i);
    ChildLayout(h, ids, t.children, low, j);
    if i < j {
      SizesBefore(t.children, i, j);
    } else {
      SizesBefore(t.children, j, i);
    }
    SizesBefore(t.children, j, |t.children|);
    assert t.children[..|t.children|] == t.children;
    LayoutFrame(h, h', ids[j], t.children[j], low + SizeAll(t.children[..j]));
  }

  /** The heap only grew: nothing that was there changed. */
  predicate Grown(h: Heap, h': Heap) {
    forall id <- h :: id in h' && h'[id] == h[id]
  }

  lemma CopiedPush(h: Heap, items: seq<Id>, i: nat, active: set<Id>)
    requires Closed(h) && AllIn(h, items) && active <= h.Keys && i <= |items|
    ensures CopiedAll(h, items[..0], active) == Some([])
    ensures i < |items| && CopiedAll(h, items[..i], active).Some? ==>
              CopiedAll(h, items[..i + 1], active) ==
              match Copied(h, items[i], active)
              case None => None
              case Some(t) => Some(CopiedAll(h, items[..i], active).value + [t])
  {
    hide Copied;
    if i < |items| {
      assert items[..i + 1][..i] == items[..i];
    }
  }

  lemma ContentFails(h: Heap, n: Id, active: set<Id>)
    requires Closed(h) && n in h && active <= h.Keys && n !in active && !h[n].kind.Alias?
    requires CopiedAll(h, h[n].content, active + {n}).None?
    ensures Copied(h, n, active).None?
  {
  }

  lemma AnchorCleared(h: Heap, n: Id, t: Tree, low: Id)
    requires Layout(h, n, t, low)
    ensures n in h && n >= low && Layout(h[n := h[n].(anchor := "")], n, t.(anchor := ""), low)
  {
    LayoutAllFrame(h, h[n := h[n].(anchor := "")], h[n].content, t.children, low);
  }

  lemma NothingLaid(h: Heap, low: Id)
    ensures LayoutAll(h, [], [], low) && SizeAll([]) == 0
  {
  }

  lemma LayoutPush(before: Heap, after: Heap, ids: seq<Id>, trees: seq<Tree>, low: Id, id: Id, t: Tree)
    requires LayoutAll(before, ids, trees, low) && Grown(before, after) && Layout(after, id, t, low + SizeAll(trees))
    ensures LayoutAll(after, ids + [id], trees + [t], low)
    ensures id + 1 == low + SizeAll(trees + [t])
  {
    LayoutAllFrame(before, after, ids, trees, low);
    assert (trees + [t])[..|trees|] == trees && (ids + [id])[..|ids|] == ids;
  }

  lemma Rooted(h: Heap, n: Id, active: set<Id>, trees: seq<Tree>, before: Heap, after: Heap, ids: seq<Id>, low: Id,
               id: Id)
    requires Closed(h) && n in h && active <= h.Keys && n !in active && !h[n].kind.Alias?
    requires CopiedAll(h, h[n].content, active + {n}) == Some(trees)
    requires LayoutAll(before, ids, trees, low) && Grown(before, after) && id == low + SizeAll(trees)
    requires id in after && after[id] == Node(h[n].kind, h[n].tag, h[n].value, h[n].anchor, h[n].target, ids)
    ensures Copied(h, n, active).Some? && Layout(after, id, Copied(h, n, active).value, low)
  {
    LayoutAllFrame(before, after, ids, trees, low);
    assert LayoutAll(after, ids, trees, low) ==> |ids| == |trees|;
  }

  lemma {:induction false} AllFailLonger(h: Heap, items: seq<Id>, active: set<Id>, i: nat)
    requires Closed(h) && AllIn(h, items) && active <= h.Keys && i <= |items| && CopiedAll(h, items[..i], active).None?
    ensures CopiedAll(h, items, active).None?
    decreases |items|
  {
    if i < |items| {
      assert items[..|items| - 1][..i] == items[..i];
      AllFailLonger(h, items[..|items| - 1], active, i);
    } else {
      assert items[..i] == items;
    }
  }
}
