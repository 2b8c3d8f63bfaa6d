/** A document whose nodes the program edits in place
    (internal/gateway/config_store.go:164-291, config/unknown_fields.go:77-104,
    config/document.go:41-85). */
module YamlDocument {
  import opened YamlMerge
  import opened YamlCopy
  import opened YamlDedupe
  import opened YamlEdit
  import opened YamlEffective
  import opened YamlFlow
  import opened YamlEdits

  /** A new node that says what node `n` of the copied graph says, over the copies of its children. */
  lemma RootAdded(h: Heap, n: Id, before: Heap, content: seq<Id>, id: Id)
    requires Closed(h) && n in h && !h[n].kind.Alias? && Grown(h, before) && Closed(before)
    requires AllIn(before, content) && id !in before
    ensures var after := before[id := h[n].(content := content)];
            Closed(after) && Grown(before, after) && (NullsAreScalars(before) ==> NullsAreScalars(after))
  {
  }

  /** Clearing the anchor of a new node. */
  lemma RootCleared(base: Heap, h: Heap, r: Id)
    requires Closed(h) && Grown(base, h) && r in h && r !in base
    ensures var after := h[r := h[r].(anchor := "")];
            Closed(after) && Grown(base, after) && (NullsAreScalars(h) ==> NullsAreScalars(after))
  {
  }

  lemma Extended(a: Heap, b: Heap, c: Heap)
    requires Grown(a, b) && Grown(b, c)
    ensures Grown(a, c)
  {
  }

  /** What was reached before a node was copied still is, and the node itself. */
  lemma StillIn(before: Heap, after: Heap, items: seq<Id>, id: Id)
    requires Grown(before, after) && AllIn(before, items) && id in after
    ensures AllIn(after, items + [id])
  {
  }

  lemma GrownAt(h: Heap, h': Heap, n: Id)
    requires Grown(h, h') && n in h
    ensures n in h' && h'[n] == h[n] && Grown(h', h')
  {
  }

  lemma TargetIn(h: Heap, n: Id)
    requires Closed(h) && n in h
    ensures h[n].kind.Alias? ==> h[n].target in h
  {
  }

  lemma ChildrenIn(h: Heap, n: Id)
    requires Closed(h) && n in h
    ensures AllIn(h, h[n].content)
  {
  }

  class Document {
    var nodes: Heap
    var next: Id

    predicate Bounded()
      reads this
    {
      forall id <- nodes :: id < next
    }

    method Allocate(node: Node) returns (id: Id)
      requires Bounded()
      modifies this
      ensures Bounded() && id == old(next) && next == id + 1 && nodes == old(nodes)[id := node]
    {
      id := next;
      nodes := nodes[id := node];
      next := next + 1;
    }

    /** copyConfigurationNodes. `h` is the graph being copied; the copies are new nodes. */
    method CopyNodes(ghost h: Heap, n: Id, active: set<Id>) returns (r: Option<Id>)
      requires Bounded() && Closed(nodes) && Closed(h) && n in h && active <= h.Keys && Grown(h, nodes)
      modifies this
      ensures Bounded() && Closed(nodes) && Grown(old(nodes), nodes) && old(next) <= next
      ensures NullsAreScalars(old(nodes)) ==> NullsAreScalars(nodes)
      ensures r.Some? <==> Copied(h, n, active).Some?
      ensures r.Some? ==>
                next == r.value + 1 && r.value in nodes
                && Layout(nodes, r.value, Copied(h, n, active).value, old(next))
      decreases |h.Keys - active|, 0
    {
      hide Layout, Mirrors, AliasFree, Closed, NullsAreScalars, Grown, CopiedAll;
      GrownAt(h, nodes, n);
      if n in active {
        return None;
      }
      Shrinks(h.Keys, active, n);
      TargetIn(h, n);
      var node := nodes[n];
      if node.kind.Alias? {
        r := CopyNodes(h, node.target, active + {n});
        if r.Some? {
          AnchorCleared(nodes, r.value, Copied(h, node.target, active + {n}).value, old(next));
          RootCleared(old(nodes), nodes, r.value);
          nodes := nodes[r.value := nodes[r.value].(anchor := "")];
        }
        return;
      }
      r := CopyContent(h, n, active);
    }

    /** The children of one node, then the node itself. */
    method CopyContent(ghost h: Heap, n: Id, active: set<Id>) returns (r: Option<Id>)
      requires Bounded() && Closed(nodes) && Closed(h) && n in h && active <= h.Keys && Grown(h, nodes)
      requires n !in active && !h[n].kind.Alias?
      modifies this
      ensures Bounded() && Closed(nodes) && Grown(old(nodes), nodes) && old(next) <= next
      ensures NullsAreScalars(old(nodes)) ==> NullsAreScalars(nodes)
      ensures r.Some? <==> Copied(h, n, active).Some?
      ensures r.Some? ==>
                next == r.value + 1 && r.value in nodes
                && Layout(nodes, r.value, Copied(h, n, active).value, old(next))
      decreases |h.Keys - (active + {n})|, 1
    {
      hide Layout, LayoutAll, SizeAll, Copied, CopiedAll, Closed, NullsAreScalars, Grown;
      GrownAt(h, nodes, n);
      ChildrenIn(h, n);
      var node := nodes[n];
      var content: seq<Id> := [];
      NothingLaid(nodes, next);
      ghost var trees: seq<Tree> := [];
      ghost var low := next;
      CopiedPush(h, node.content, 0, active + {n});
      for i := 0 to |node.content|
        invariant Bounded() && Closed(nodes) && Grown(old(nodes), nodes) && Grown(h, nodes)
        invariant AllIn(nodes, content) && (NullsAreScalars(old(nodes)) ==> NullsAreScalars(nodes))
        invariant CopiedAll(h, node.content[..i], active + {n}) == Some(trees)
        invariant LayoutAll(nodes, content, trees, low) && next == low + SizeAll(trees)
      {
        CopiedPush(h, node.content, i, active + {n});
        ghost var before := nodes;
        var child := CopyNodes(h, node.content[i], active + {n});
        Extended(old(nodes), before, nodes);
        Extended(h, before, nodes);
        if child.None? {
          AllFailLonger(h, node.content, active + {n}, i + 1);
          ContentFails(h, n, active);
          return None;
        }
        ghost var t := Copied(h, node.content[i], active + {n}).value;
        LayoutPush(before, nodes, content, trees, low, child.value, t);
        StillIn(before, nodes, content, child.value);
        content := content + [child.value];
        trees := trees + [t];
      }
      assert node.content[..|node.content|] == node.content;
      ghost var before := nodes;
      RootAdded(h, n, before, content, next);
      var id := Allocate(Node(node.kind, node.tag, node.value, node.anchor, node.target, content));
      Extended(old(nodes), before, nodes);
      Rooted(h, n, active, trees, before, nodes, content, low, id);
      return Some(id);
    }

    /** The copy that a commit edits: refused exactly if the document is cyclic;
        otherwise a tree of new nodes that reads the same and shares nothing. */
    method CopyConfiguration(n: Id) returns (r: Option<Id>, ghost t: Tree)
      requires Bounded() && Closed(nodes) && n in nodes
      modifies this
      ensures Bounded() && Closed(nodes) && Grown(old(nodes), nodes)
      ensures NullsAreScalars(old(nodes)) ==> NullsAreScalars(nodes)
      ensures r.None? <==> exists p: seq<Id> :: Path(old(nodes), p) && p[0] == n && Returns(p, {})
      ensures r.Some? ==> Layout(nodes, r.value, t, old(next)) && Mirrors(old(nodes), n, t) && AliasFree(t)
    {
      ghost var h := nodes;
      CopyFailsExactlyOnCycles(h, n);
      r := CopyNodes(h, n, {});
      t := Tree(Scalar, "", "", "", []);
      if r.Some? {
        CopyMirrors(h, n, {});
        t := Copied(h, n, {}).value;
      }
    }

    /** setMappingValue */
    method SetMappingValue(n: Id, key: string, value: Id)
      requires Bounded() && n in nodes && value in nodes && AllIn(nodes, nodes[n].content)
      modifies this
      ensures Bounded() && forall id <- old(nodes) :: id in nodes && (id != n ==> nodes[id] == old(nodes)[id])
      ensures nodes[n].(content := []) == old(nodes)[n].(content := [])
      ensures AllIn(nodes, nodes[n].content)
      ensures var before, after := old(nodes)[n].content, nodes[n].content;
              var k := PairIndex(old(nodes), before, key, 0);
              if k < |before| / 2 then next == old(next) && after == before[2 * k + 1 := value]
              else next == old(next) + 1 && after == before + [old(next), value] && old(next) in nodes
                   && nodes[old(next)].value == key
      ensures SetResult(old(nodes), nodes, n, key, value)
    {
      var content := nodes[n].content;
      var i := 0;
      while 2 * i + 1 < |content|
        invariant 2 * i <= |content| && nodes == old(nodes) && next == old(next)
        invariant forall j :: 0 <= j < i ==> nodes[content[2 * j]].value != key
      {
        if nodes[content[2 * i]].value == key {
          FoundAt(nodes, content, key, i);
          nodes := nodes[n := nodes[n].(content := content[2 * i + 1 := value])];
          return;
        }
        i := i + 1;
      }
      FoundAt(nodes, content, key, i);
      var name := Allocate(Node(Scalar, "!!str", key, "", 0, []));
      nodes := nodes[n := nodes[n].(content := content + [name, value])];
    }

    /** materializeMapping; an entry stands for a key and the value behind it. */
    method MaterializeMapping(n: Id, seen: set<Id>) returns (r: Option<seq<Entry>>)
      requires Closed(nodes) && n in nodes && seen <= nodes.Keys
      ensures r == Materialized(nodes, n, seen)
      decreases |nodes.Keys - seen|, 1
    {
      if n in seen {
        return None;
      }
      Shrinks(nodes.Keys, seen, n);
      var node := nodes[n];
      if node.kind.Alias? {
        r := MaterializeMapping(node.target, seen + {n});
        return;
      }
      if !node.kind.Mapping? {
        return None;
      }
      var out: seq<Entry> := [];
      for i := 0 to |node.content| / 2
        invariant out == Own(nodes, node.content, i)
      {
        if nodes[node.content[2 * i]].tag != MERGE {
          out := out + [PairAt(nodes, node.content, i)];
        }
      }
      MergesIn(nodes, node.content, |node.content| / 2);
      PartsIn(nodes, Merges(nodes, node.content, |node.content| / 2));
      r := MergeParts(out, Parts(nodes, Merges(nodes, node.content, |node.content| / 2)), seen + {n});
    }

    /** The merge values, part by part, each adding the names that are new. */
    method MergeParts(explicit: seq<Entry>, parts: seq<Id>, seen: set<Id>) returns (r: Option<seq<Entry>>)
      requires Closed(nodes) && AllIn(nodes, parts) && seen <= nodes.Keys
      ensures r == MergedInto(nodes, explicit, parts, seen)
      decreases |nodes.Keys - seen|, 2
    {
      hide Absorb, Materialized, Closed;
      var out := explicit;
      assert parts[..0] == [];
      for i := 0 to |parts|
        invariant MergedInto(nodes, explicit, parts[..i], seen) == Some(out)
      {
        assert parts[..i + 1][..i] == parts[..i];
        var m := MaterializeMapping(parts[i], seen);
        if m.None? {
          MergedFails(nodes, explicit, parts, seen, i + 1);
          return None;
        }
        out := AbsorbNew(out, m.value);
      }
      assert parts[..|parts|] == parts;
      return Some(out);
    }

    static method AbsorbNew(out: seq<Entry>, more: seq<Entry>) returns (r: seq<Entry>)
      ensures r == Absorb(out, more)
    {
      r := out;
      var keys := Names(out);
      assert more[..0] == [];
      for j := 0 to |more|
        invariant r == Absorb(out, more[..j]) && keys == Names(r)
      {
        assert more[..j + 1][..j] == more[..j];
        if more[j].name !in keys {
          NamesPush(r, more[j]);
          keys := keys + {more[j].name};
          r := r + [more[j]];
        }
      }
      assert more[..|more|] == more;
    }

    /** walkYAMLMapping; `out` collects the visits. */
    method WalkMapping(n: Id, visited: set<Id>, out: seq<Entry>) returns (visited': set<Id>, out': seq<Entry>)
      requires Closed(nodes) && n in nodes && visited <= nodes.Keys
      ensures Walked(visited', out') == Walk(nodes, n, Walked(visited, out))
      decreases |nodes.Keys - visited|
    {
      visited', out' := visited, out;
      if n in visited {
        return;
      }
      Shrinks(nodes.Keys, visited, n);
      visited' := visited + {n};
      var node := nodes[n];
      match node.kind
      case Alias => visited', out' := WalkMapping(node.target, visited', out');
      case Sequence =>
        ghost var entered := Walked(visited', out');
        assert node.content[..0] == [];
        for i := 0 to |node.content|
          invariant visited + {n} <= visited' <= nodes.Keys
          invariant Walked(visited', out') == WalkAll(nodes, node.content[..i], entered)
        {
          assert node.content[..i + 1][..i] == node.content[..i];
          Fewer(nodes.Keys, visited + {n}, visited');
          visited', out' := WalkMapping(node.content[i], visited', out');
        }
        assert node.content[..|node.content|] == node.content;
      case Mapping =>
        var explicit, merge := CollectPairs(node.content);
        out' := AbsorbNew(out', explicit);
        if merge.Some? {
          visited', out' := WalkMapping(merge.value, visited', out');
        }
      case _ =>
    }

    /** One pass over the pairs: the explicit entries, and the last merge value. */
    method CollectPairs(content: seq<Id>) returns (explicit: seq<Entry>, merge: Option<Id>)
      requires AllIn(nodes, content)
      ensures explicit == Own(nodes, content, |content| / 2)
      ensures var merges := Merges(nodes, content, |content| / 2);
              if merges == [] then merge == None else merge == Some(merges[|merges| - 1])
      ensures merge.Some? ==> merge.value in nodes
    {
      explicit, merge := [], None;
      for i := 0 to |content| / 2
        invariant explicit == Own(nodes, content, i)
        invariant var merges := Merges(nodes, content, i); if merges == [] then merge == None
                    else merge == Some(merges[|merges| - 1])
        invariant merge.Some? ==> merge.value in nodes
      {
        if nodes[content[2 * i]].tag == MERGE {
          merge := Some(content[2 * i + 1]);
        } else {
          explicit := explicit + [PairAt(nodes, content, i)];
        }
      }
    }

    /** dedupeMappingKeys */
    method DedupeMappingKeys(n: Id, visited: set<Id>) returns (visited': set<Id>)
      requires Closed(nodes) && n in nodes && visited <= nodes.Keys
      modifies this`nodes
      ensures n in visited' && Traversed(old(nodes), nodes, visited, visited')
      decreases |nodes.Keys - visited|, 1
    {
      if n in visited {
        return visited;
      }
      Shrinks(nodes.Keys, visited, n);
      if nodes[n].kind.Document? || nodes[n].kind.Sequence? {
        visited' := DedupeChildren(n, visited);
      } else if nodes[n].kind.Mapping? {
        visited' := DedupePairs(n, visited);
      } else {
        visited' := visited + {n};
        assert visited' - visited == {n};
      }
    }

    /** One recursive call within a traversal under way. */
    method Visit(child: Id, visited: set<Id>, ghost before: Heap, ghost start: set<Id>) returns (visited': set<Id>)
      requires Traversed(before, nodes, start, visited) && child in before
      modifies this`nodes
      ensures Traversed(before, nodes, start, visited') && visited + {child} <= visited'
      decreases |before.Keys - start|, 2
    {
      hide Clean, Followed, Cleaned, Traversed, Closed;
      ghost var middle := nodes;
      Meaning(before, nodes, start, visited);
      Fewer(before.Keys, start, visited);
      visited' := DedupeMappingKeys(child, visited);
      Meaning(middle, nodes, visited, visited');
      ThenTraversed(before, middle, nodes, start, visited, visited');
    }

    method DedupeChildren(n: Id, visited: set<Id>) returns (visited': set<Id>)
      requires Closed(nodes) && n in nodes && n !in visited && visited <= nodes.Keys
      requires nodes[n].kind.Document? || nodes[n].kind.Sequence?
      modifies this`nodes
      ensures n in visited' && Traversed(old(nodes), nodes, visited, visited')
      decreases |nodes.Keys - (visited + {n})|, 3
    {
      hide Clean, Followed, Cleaned, Traversed;
      ghost var before := nodes;
      var content := nodes[n].content;
      assert AllIn(before, content);
      hide Closed;
      visited' := visited + {n};
      NothingTraversed(before, visited');
      for i := 0 to |content|
        invariant Traversed(before, nodes, visited + {n}, visited')
        invariant forall j :: 0 <= j < i ==> content[j] in visited'
      {
        visited' := Visit(content[i], visited', before, visited + {n});
      }
      Meaning(before, nodes, visited + {n}, visited');
      ChildrenTraversed(before, nodes, n, visited, visited');
    }

    method DedupePairs(n: Id, visited: set<Id>) returns (visited': set<Id>)
      requires Closed(nodes) && n in nodes && n !in visited && visited <= nodes.Keys && nodes[n].kind.Mapping?
      modifies this`nodes
      ensures n in visited' && Traversed(old(nodes), nodes, visited, visited')
      decreases |nodes.Keys - (visited + {n})|, 4
    {
      hide Clean, Kept, Names, Followed, Cleaned, Traversed, Own;
      ghost var before := nodes;
      var content := nodes[n].content;
      NothingTraversed(before, visited + {n});
      KeptOwn(before, content, |content| / 2);
      var filtered: seq<Id>;
      visited', filtered := KeepPairs(content, visited + {n});
      ghost var walked := nodes;
      Meaning(before, walked, visited + {n}, visited');
      nodes := nodes[n := nodes[n].(content := filtered)];
      PairsTraversed(before, walked, nodes, n, visited, visited', filtered);
    }

    /** The pairs to keep; the values that stay are traversed on the way. */
    method KeepPairs(content: seq<Id>, visited: set<Id>) returns (visited': set<Id>, filtered: seq<Id>)
      requires Closed(nodes) && AllIn(nodes, content) && visited <= nodes.Keys
      modifies this`nodes
      ensures Traversed(old(nodes), nodes, visited, visited') && filtered == Kept(old(nodes), content, |content| / 2)
      ensures |filtered| % 2 == 0 && forall j :: 0 <= j < |filtered| / 2 ==> filtered[2 * j + 1] in visited'
      decreases |nodes.Keys - visited|, 3
    {
      hide Clean, Kept, Names, Followed, Cleaned, Traversed, Own, Closed;
      ghost var before := nodes;
      var kept: set<string> := {};
      filtered := [];
      visited' := visited;
      NothingTraversed(before, visited);
      KeptNothing(before, content);
      for i := 0 to |content| / 2
        invariant Traversed(before, nodes, visited, visited')
        invariant filtered == Kept(before, content, i) && kept == Names(Own(before, content, i))
        invariant |filtered| % 2 == 0 && forall j :: 0 <= j < |filtered| / 2 ==> filtered[2 * j + 1] in visited'
      {
        var key, value := content[2 * i], content[2 * i + 1];
        KeptNext(before, content, i);
        Meaning(before, nodes, visited, visited');
        SameKey(before, nodes, visited' - visited, key);
        if nodes[key].tag == MERGE || nodes[key].value !in kept {
          if nodes[key].tag != MERGE {
            kept := kept + {nodes[key].value};
          }
          visited' := Visit(value, visited', before, visited);
          filtered := filtered + [key, value];
        }
      }
    }

    /** materializeMapping, with its result as a node. */
    method Spell(n: Id) returns (r: Option<Node>)
      requires Closed(nodes) && n in nodes
      ensures r.Some? <==> Materialized(nodes, n, {}).Some?
      ensures r.Some? ==> r.value == SpelledOut(nodes, n) && r.value.kind.Mapping? && r.value.anchor == ""
      ensures r.Some? ==> AllIn(nodes, r.value.content) && Genuine(nodes, Materialized(nodes, n, {}).value)
    {
      var entries := MaterializeMapping(n, {});
      if entries.None? {
        return None;
      }
      MaterializedGenuine(nodes, n, {});
      MaterializedMapping(nodes, n, {});
      FlatOwn(nodes, entries.value);
      return Some(nodes[Resolved(nodes, n, {})].(anchor := "", content := Flat(entries.value)));
    }

    /** independentMapping: spell out the mapping and then the value under `key`, as
        a mapping of its own, so that editing it changes nothing it was shared with. */
    method IndependentMapping(parent: Id, key: string) returns (r: Option<Id>)
      requires Bounded() && Closed(nodes) && parent in nodes
      modifies this
      ensures Bounded() && Closed(nodes)
      ensures forall id <- old(nodes) :: id in nodes && (id != parent ==> nodes[id] == old(nodes)[id])
      ensures Materialized(old(nodes), parent, {}).None? ==> r.None? && nodes == old(nodes)
      ensures Materialized(old(nodes), parent, {}).Some? ==>
                var spelled := old(nodes)[parent := SpelledOut(old(nodes), parent)];
                && Closed(spelled)
                && (r.None? <==> ChildNode(spelled, parent, key).None?)
                && (if r.None? then nodes == spelled
                    else r.value !in spelled && r.value in nodes
                         && nodes[r.value] == ChildNode(spelled, parent, key).value)
      ensures r.Some? && !old(nodes)[parent].kind.Alias? ==> Spelling(old(nodes), nodes, parent, key, r.value)
    {
      hide Materialized, Flat, Genuine, AllIn, PairIndex, ValueOf, SpelledOut, Resolved, Edited, Closed, ChildNode,
           Spelling;
      ghost var before := nodes;
      var effective := Spell(parent);
      if effective.None? {
        return None;
      }
      StillClosed(before, parent, effective.value);
      nodes := nodes[parent := effective.value];
      var child := ChildOf(parent, key);
      if child.None? {
        return None;
      }
      var node := Adopt(parent, key, child.value, before);
      return Some(node);
    }

    /** What the value under `key` is replaced by: a mapping of its own. */
    method ChildOf(parent: Id, key: string) returns (r: Option<Node>)
      requires Closed(nodes) && parent in nodes
      ensures r == ChildNode(nodes, parent, key)
      ensures r.Some? ==> r.value.kind.Mapping? && AllIn(nodes, r.value.content)
    {
      hide Materialized, Flat, PairIndex, SpelledOut, Resolved;
      var value := ValueOf(nodes, nodes[parent].content, key);
      ValueWithin(nodes, nodes[parent].content, key);
      if value.Some? && nodes[value.value].tag != "!!null" {
        r := Spell(value.value);
      } else {
        r := Some(EMPTY_MAPPING);
      }
    }

    /** The new mapping becomes a node of its own under `key`. */
    method Adopt(parent: Id, key: string, child: Node, ghost before: Heap) returns (node: Id)
      requires Bounded() && Closed(before) && parent in before && Materialized(before, parent, {}).Some?
      requires nodes == Respelled(before, parent) && Closed(nodes) && AllIn(nodes, nodes[parent].content)
      requires ChildNode(nodes, parent, key) == Some(child) && child.kind.Mapping? && AllIn(nodes, child.content)
      modifies this
      ensures Bounded() && Closed(nodes)
      ensures forall id <- old(nodes) :: id in nodes && (id != parent ==> nodes[id] == old(nodes)[id])
      ensures node in nodes && node !in old(nodes) && nodes[node] == child && AllIn(nodes, child.content)
      ensures !before[parent].kind.Alias? ==> Spelling(before, nodes, parent, key, node)
    {
      hide Materialized, Flat, PairIndex, ValueOf, SpelledOut, Resolved, Edited, Closed, AllIn, Spelling, ChildNode;
      ghost var spelled := nodes;
      node := Allocate(child);
      ghost var mid := nodes;
      AllInMore(spelled, nodes, nodes[parent].content);
      SameInGrown(spelled, nodes, nodes[parent].content, key);
      AllocatedClosed(spelled, node, child);
      SetMappingValue(parent, key, node);
      SetClosed(mid, nodes, parent, key, node);
      AllInMore(spelled, nodes, child.content);
      if !before[parent].kind.Alias? {
        Adopted(before, mid, nodes, parent, key, node, child);
      }
    }

    /** removeMappingValue */
    method RemoveMappingValue(n: Id, key: string)
      requires n in nodes && AllIn(nodes, nodes[n].content)
      modifies this
      ensures next == old(next) && n in nodes && nodes == old(nodes)[n := nodes[n]]
              && nodes[n].(content := []) == old(nodes)[n].(content := [])
      ensures var before, after := old(nodes)[n].content, nodes[n].content;
              var k := PairIndex(old(nodes), before, key, 0);
              after == if k < |before| / 2 then before[..2 * k] + before[2 * k + 2..] else before
    {
      var content := nodes[n].content;
      var i := 0;
      while 2 * i + 1 < |content|
        invariant i <= |content| / 2 && nodes == old(nodes) && next == old(next)
        invariant forall j :: 0 <= j < i ==> nodes[content[2 * j]].value != key
      {
        if nodes[content[2 * i]].value == key {
          FoundAt(nodes, content, key, i);
          nodes := nodes[n := nodes[n].(content := content[..2 * i] + content[2 * i + 2..])];
          return;
        }
        i := i + 1;
      }
      FoundAt(nodes, content, key, i);
    }
  }
}
