/** The edits that the program makes in its configuration: binding a chat, and forgetting
    a platform's owner and bindings (internal/gateway/chat_binding.go:156-184,
    internal/gateway/pairing_cli.go:92-106, internal/gateway/config_store.go:204-214). */
module YamlBinding {
  import opened YamlMerge
  import opened YamlCopy
  import opened YamlEdit
  import opened YamlEffective
  import opened YamlFlow
  import opened YamlEdits
  import opened YamlAliasKeys
  import opened YamlOutcome
  import opened YamlDocument

  /** The chain of keys neither leads to one of these places nor through it. */
  predicate Clear(path: Chain, owned: set<Chain>, changed: set<Chain>) {
    path !in owned && forall p <- changed :: !(p <= path)
  }

  lemma {:induction false} TouchedMeaning(e: Edits, q: Chain, path: Chain)
    requires Touched(e, q, path) && q in e.owned
    ensures !Clear(q + path, e.owned.Keys, e.changed)
    decreases |path|
  {
    if path == [] {
      assert q + path == q;
    } else {
      assert Under(q, path[0]) + path[1..] == q + path;
      if Under(q, path[0]) in e.changed {
        assert Under(q, path[0]) <= q + path;
      } else {
        TouchedMeaning(e, Under(q, path[0]), path[1..]);
      }
    }
  }

  /** The document `f` under `root` reads as `h` under `n` for this chain of keys: it leads
      to a node that says the same, or to nothing in both. */
  ghost predicate ReadsAlike(h: Heap, n: Id, f: Heap, root: Id, path: Chain) {
    && Closed(h) && n in h && Closed(f) && root in f
    && var was, now := Lookup(h, n, path), Lookup(f, root, path);
       && (now.Missing? <==> was.Missing?) && (now.Found? <==> was.Found?)
       && (was.Found? ==> Same(h, was.value, f, now.value))
  }

  /** The main result on edits. The document was copied and then edited in any number of
      places: every chain of keys that could be read, and that neither leads to an edited
      mapping nor through a value that was set, leads to what it led to in the document,
      with its alias keys spelled out. */
  lemma EditsAreLocal(h: Heap, n: Id, c: Heap, k: Id, f: Heap, e: Edits, path: Chain)
    requires Closed(h) && n in h && Closed(c) && k in c && Same(h, n, c, k)
    requires Inv(c, k, f, e) && NullsAreScalars(c) && Clear(path, e.owned.Keys, e.changed)
    requires Closed(Spelled(h)) && n in Spelled(h) && !Lookup(Spelled(h), n, path).Broken?
    ensures ReadsAlike(Spelled(h), n, f, k, path)
  {
    hide Materialized, Descends, Reads, Touched, KeyOK, Lookup, Same, Spelled, BaseOK, PlainOK, NullsAreScalars, Clear;
    RootOwned(c, k, f, e);
    SameAsSpelled(h, n, c, k);
    SpelledReads(h);
    SameLookup(Spelled(h), n, c, k, path);
    assert [] + path == path;
    if Touched(e, [], path) {
      TouchedMeaning(e, [], path);
    } else {
      UntouchedReads(c, k, f, e, [], path);
      if Lookup(c, k, path).Found? {
        var v := Lookup(c, k, path).value;
        AgreesUnder(c, k, f, v);
        AgreeSame(Spelled(h), Lookup(Spelled(h), n, path).value, c, f, v);
      }
    }
  }

  lemma AllAlike(h: Heap, n: Id, c: Heap, k: Id, f: Heap, e: Edits)
    requires Closed(h) && n in h && Closed(c) && k in c && Same(h, n, c, k) && Inv(c, k, f, e) && NullsAreScalars(c)
    requires Closed(Spelled(h)) && n in Spelled(h)
    ensures forall path: Chain ::
              Clear(path, e.owned.Keys, e.changed) && !Lookup(Spelled(h), n, path).Broken? ==>
                ReadsAlike(Spelled(h), n, f, k, path)
  {
    hide Same, Inv, NullsAreScalars, Clear, Closed, Spelled, Lookup, ReadsAlike;
    forall path: Chain | Clear(path, e.owned.Keys, e.changed) && !Lookup(Spelled(h), n, path).Broken?
      ensures ReadsAlike(Spelled(h), n, f, k, path)
    {
      EditsAreLocal(h, n, c, k, f, e, path);
    }
  }

  lemma RootOwned(c: Heap, k: Id, f: Heap, e: Edits)
    requires Inv(c, k, f, e)
    ensures Grounded(c, k, f) && [] in e.owned && e.owned[[]] == k && [] in e.base && e.base[[]] == Some(k) && k in f
            && k in c
  {
    NoAlias(c, k);
    hide Descends, Materialized, KeyOK;
  }

  /** A document as it was parsed: its one child is the root mapping. */
  predicate Parsed(h: Heap, doc: Id) {
    && Closed(h) && doc in h && h[doc].kind.Document? && |h[doc].content| == 1
    && h[h[doc].content[0]].kind.Mapping?
  }

  /** The copy of a parsed document has the copy of its root. */
  lemma CopiedRoot(h: Heap, doc: Id, t: Tree, c: Heap, id: Id, low: Id)
    requires Parsed(h, doc) && Closed(c) && Mirrors(h, doc, t) && Layout(c, id, t, low)
    ensures id in c && |c[id].content| == 1 && c[id].content[0] in c
    ensures Same(h, h[doc].content[0], c, c[id].content[0]) && Descends(c, c[id].content[0])
            && !c[c[id].content[0]].kind.Alias?
  {
    LaidOutSame(h, doc, t, c, id, low);
    assert Resolved(h, doc, {}) == doc;
    SameDescends(h, h[doc].content[0], c, c[id].content[0]);
    NoAlias(c, c[id].content[0]);
  }

  // Steps

  /** Labels stay, and every node but this one is as it was. */
  predicate LeavesOthers(f: Heap, f': Heap, x: Id) {
    LabelsStay(f, f') && forall id <- f :: id != x ==> f'[id] == f[id]
  }

  lemma ChangingLeaves(f: Heap, f': Heap, x: Id, key: string)
    requires Changing(f, f', x, key)
    ensures LeavesOthers(f, f', x)
  {
  }

  /** What every other key of this mapping leads to stays. */
  ghost predicate KeepsReads(f: Heap, f': Heap, x: Id, key: string) {
    && Closed(f) && Closed(f') && x in f && x in f'
    && forall other :: other != key ==> Reads(f', x, other) == Reads(f, x, other)
  }

  /** Owning the value under a key fails exactly if the copy has no legible mapping there;
      otherwise the new mapping `y` lists the entries of that mapping. */
  ghost predicate OwnOutcome(c: Heap, base: Option<Id>, key: string, f': Heap, y: Option<Id>) {
    && Closed(c) && (base.Some? ==> base.value in c)
    && var child := BaseChild(c, base, key);
       && (child.Some? ==> child.value in c)
       && (y.None? <==> !Legible(c, child))
       && (y.Some? ==> y.value in f' && Lists(f', f'[y.value].content, EntriesOf(c, child)))
  }

  lemma OwnedOutcome(c: Heap, k: Id, f: Heap, f': Heap, e: Edits, q: Chain, key: string, y: Option<Id>)
    requires Inv(c, k, f, e) && q in e.owned && Under(q, key) !in e.owned && Under(q, key) !in e.changed
    requires Closed(f) && e.owned[q] in f && Materialized(f, e.owned[q], {}).Some? && !f[e.owned[q]].kind.Alias?
    requires Closed(Respelled(f, e.owned[q]))
    requires y.None? <==> ChildNode(Respelled(f, e.owned[q]), e.owned[q], key).None?
    requires y.Some? ==> Spelling(f, f', e.owned[q], key, y.value)
    ensures q in e.base && OwnOutcome(c, e.base[q], key, f', y)
  {
    hide Inv, Materialized, ChildNode, BaseChild, Legible, EntriesOf, SpelledOut, Edited, Plain, Lists;
    ChildOutcome(c, k, f, e, q, key);
    if y.Some? {
      YamlEdits.Relabelled(f, f', e.owned[q]);
      ListsStays(Respelled(f, e.owned[q]), f', f'[y.value].content, EntriesOf(c, BaseChild(c, e.base[q], key)));
    }
  }

  lemma SpellingKeepsReads(f: Heap, f': Heap, x: Id, key: string, y: Id)
    requires Spelling(f, f', x, key, y)
    ensures KeepsReads(f, f', x, key)
  {
    hide Materialized, Reads, Edited, ChildNode, SpelledOut;
    forall other: string | other != key
      ensures Reads(f', x, other) == Reads(f, x, other)
    {
      RespelledReads(f, f', x, key, y, other);
    }
  }

  /** independentMapping on a mapping that is owned by now. */
  method Own(doc: Document, ghost c: Heap, ghost k: Id, ghost e: Edits, ghost q: Chain, parent: Id, key: string)
    returns (r: Option<Id>, ghost e': Edits)
    requires doc.Bounded() && Inv(c, k, doc.nodes, e) && AllPlain(doc.nodes, e)
    requires q in e.owned && e.owned[q] == parent && Under(q, key) !in e.changed
    modifies doc
    ensures r.Some? ==>
              && doc.Bounded() && Inv(c, k, doc.nodes, e') && AllPlain(doc.nodes, e')
                 && e' == Owning(c, e, q, key, r.value)
    ensures r.Some? ==> LeavesOthers(old(doc.nodes), doc.nodes, parent) && r.value !in old(doc.nodes)
    ensures r.Some? ==> KeepsReads(old(doc.nodes), doc.nodes, parent, key)
    ensures Under(q, key) !in e.owned ==> q in e.base && OwnOutcome(c, e.base[q], key, doc.nodes, r)
  {
    hide Inv, AllPlain, Spelling, Materialized, SpelledOut, ChildNode, Plain, OwnOutcome, KeepsReads;
    e' := e;
    PlainParent(c, k, doc.nodes, e, q);
    ghost var f := doc.nodes;
    Rereads(f, parent);
    r := doc.IndependentMapping(parent, key);
    if Under(q, key) !in e.owned {
      OwnedOutcome(c, k, f, doc.nodes, e, q, key, r);
    }
    if r.Some? {
      OwnedMore(c, k, f, doc.nodes, e, q, key, r.value);
      SpellingLabels(f, doc.nodes, parent, key, r.value);
      SpelledIsNew(f, doc.nodes, parent, key, r.value);
      SpellingKeepsReads(f, doc.nodes, parent, key, r.value);
      e' := Owning(c, e, q, key, r.value);
    }
  }

  lemma SpelledIsNew(f: Heap, f': Heap, x: Id, key: string, y: Id)
    requires Spelling(f, f', x, key, y)
    ensures y !in f
  {
  }

  lemma PlainParent(c: Heap, k: Id, f: Heap, e: Edits, q: Chain)
    requires Inv(c, k, f, e) && AllPlain(f, e) && q in e.owned
    ensures Closed(f) && e.owned[q] in f && !f[e.owned[q]].kind.Alias? && Plain(f, e.owned[q])
  {
    hide Descends, Materialized, KeyOK;
  }

  lemma OwnedMore(c: Heap, k: Id, f: Heap, f': Heap, e: Edits, q: Chain, key: string, y: Id)
    requires Inv(c, k, f, e) && q in e.owned && Spelling(f, f', e.owned[q], key, y) && Under(q, key) !in e.changed
    ensures Inv(c, k, f', Owning(c, e, q, key, y)) && AllPlain(f', Owning(c, e, q, key, y))
  {
    hide Inv, AllPlain, Spelling, BaseChild;
    OwnKeeps(c, k, f, f', e, q, key, y);
    UnderInjective(q, key, q, key);
    assert Under(q, key) in Owning(c, e, q, key, y).owned.Keys;
    AllPlainAfter(c, k, f', Owning(c, e, q, key, y));
  }

  lemma ChangingKeepsReads(f: Heap, f': Heap, x: Id, key: string)
    requires Changing(f, f', x, key)
    ensures KeepsReads(f, f', x, key)
  {
    hide Reads, ValueOf, Plain;
    PlainShape(f, x);
    forall other: string | other != key
      ensures Reads(f', x, other) == Reads(f, x, other)
    {
      PlainReads(f, x, other);
      PlainReads(f', x, other);
    }
  }

  /** setMappingValue on a mapping that is owned. */
  method Set(doc: Document, ghost c: Heap, ghost k: Id, ghost e: Edits, ghost q: Chain, parent: Id, key: string,
             value: Id)
    requires doc.Bounded() && Inv(c, k, doc.nodes, e) && AllPlain(doc.nodes, e) && value in doc.nodes
    requires q in e.owned && e.owned[q] == parent && Under(q, key) !in e.owned
    modifies doc
    ensures doc.Bounded() && Inv(c, k, doc.nodes, Changed(e, q, key)) && AllPlain(doc.nodes, Changed(e, q, key))
    ensures Closed(doc.nodes) && parent in doc.nodes && Reads(doc.nodes, parent, key) == Found(value)
    ensures LeavesOthers(old(doc.nodes), doc.nodes, parent) && KeepsReads(old(doc.nodes), doc.nodes, parent, key)
  {
    hide Inv, AllPlain, Materialized, Plain, SetResult, Changing, Reads, ValueOf, KeepsReads;
    PlainParent(c, k, doc.nodes, e, q);
    PlainShape(doc.nodes, parent);
    ghost var f := doc.nodes;
    doc.SetMappingValue(parent, key, value);
    SetChanges(f, doc.nodes, parent, key, value);
    ChangingLeaves(f, doc.nodes, parent, key);
    ChangingKeepsReads(f, doc.nodes, parent, key);
    ChangeKeeps(c, k, f, doc.nodes, e, q, key);
    PlainParent(c, k, doc.nodes, Changed(e, q, key), q);
    PlainReads(doc.nodes, parent, key);
  }

  /** How often other names occur in this mapping stays. */
  ghost predicate KeepsOnce(f: Heap, f': Heap, x: Id, key: string) {
    && x in f && x in f' && AllIn(f, f[x].content) && AllIn(f', f'[x].content)
    && forall other :: other != key ==> (OnceIn(f', f'[x].content, other) <==> OnceIn(f, f[x].content, other))
  }

  /** The key was removed, and it is gone exactly if it occurred once. */
  ghost predicate Removed(f: Heap, f': Heap, x: Id, key: string) {
    && KeepsReads(f, f', x, key) && KeepsOnce(f, f', x, key)
    && (Reads(f', x, key).Missing? <==> OnceIn(f, f[x].content, key))
  }

  lemma RemovedOutcome(f: Heap, f': Heap, x: Id, key: string)
    requires Closed(f) && Plain(f, x)
    requires var content := f[x].content;
             var k := PairIndex(f, content, key, 0);
             f' == if k < |content| / 2 then f[x := f[x].(content := Without(content, k))] else f
    ensures Removed(f, f', x, key) && Changing(f, f', x, key)
  {
    hide Reads, ValueOf, PairIndex, Plain, Closed, KeepsReads, Changing, Without, OnceIn;
    PlainShape(f, x);
    var content := f[x].content;
    var k := PairIndex(f, content, key, 0);
    RemoveChanges(f, f', x, key);
    ChangingKeepsReads(f, f', x, key);
    ChangingShape(f, f', x, key);
    PlainReads(f', x, key);
    PlainShape(f', x);
    if k < |content| / 2 {
      RemovedGone(f, f', content, key);
      forall other: string | other != key
        ensures OnceIn(f', f'[x].content, other) <==> OnceIn(f, content, other)
      {
        RemovedOnce(f, f', content, k, other);
      }
    } else {
      AbsentOnce(f, content, key);
    }
  }

  lemma ChangingShape(f: Heap, f': Heap, x: Id, key: string)
    requires Changing(f, f', x, key)
    ensures Closed(f') && Plain(f', x) && LabelsStay(f, f')
  {
  }

  lemma AbsentOnce(f: Heap, content: seq<Id>, key: string)
    requires AllIn(f, content) && PairIndex(f, content, key, 0) == |content| / 2
    ensures ValueOf(f, content, key).None? && OnceIn(f, content, key)
  {
  }

  /** removeMappingValue on a mapping that is owned. */
  method Remove(doc: Document, ghost c: Heap, ghost k: Id, ghost e: Edits, ghost q: Chain, parent: Id, key: string)
    requires doc.Bounded() && Inv(c, k, doc.nodes, e) && AllPlain(doc.nodes, e)
    requires q in e.owned && e.owned[q] == parent && Under(q, key) !in e.owned
    modifies doc
    ensures doc.Bounded() && Inv(c, k, doc.nodes, Changed(e, q, key)) && AllPlain(doc.nodes, Changed(e, q, key))
    ensures Removed(old(doc.nodes), doc.nodes, parent, key)
  {
    hide Inv, AllPlain, Materialized, Plain, Changing, Removed;
    PlainParent(c, k, doc.nodes, e, q);
    PlainShape(doc.nodes, parent);
    ghost var f := doc.nodes;
    doc.RemoveMappingValue(parent, key);
    RemovedOutcome(f, doc.nodes, parent, key);
    ChangeKeeps(c, k, f, doc.nodes, e, q, key);
  }

  /** mappingNode and scalarNode: a mapping of texts, alternating keys and values. */
  method NewMapping(doc: Document, texts: seq<string>) returns (id: Id)
    requires doc.Bounded() && Closed(doc.nodes)
    modifies doc
    ensures doc.Bounded() && Closed(doc.nodes) && Grown(old(doc.nodes), doc.nodes) && id in doc.nodes
            && id !in old(doc.nodes)
    ensures doc.nodes[id].kind.Mapping? && |doc.nodes[id].content| == |texts| && AllIn(doc.nodes, doc.nodes[id].content)
    ensures forall i :: 0 <= i < |texts| ==> doc.nodes[doc.nodes[id].content[i]] == Node(Scalar, "!!str", texts[i],
              "", 0, [])
  {
    var content: seq<Id> := [];
    for i := 0 to |texts|
      invariant doc.Bounded() && Closed(doc.nodes) && Grown(old(doc.nodes), doc.nodes)
      invariant |content| == i && AllIn(doc.nodes, content)
      invariant forall j :: 0 <= j < i ==> doc.nodes[content[j]] == Node(Scalar, "!!str", texts[j], "", 0, [])
    {
      var text := doc.Allocate(Node(Scalar, "!!str", texts[i], "", 0, []));
      content := content + [text];
    }
    id := doc.Allocate(Node(Mapping, "!!map", "", "", 0, content));
  }

  /** The key under which a platform is configured already, or its normal name. */
  method PlatformKey(doc: Document, ims: Id, platform: string, normalize: string -> string) returns (key: string)
    requires ims in doc.nodes && AllIn(doc.nodes, doc.nodes[ims].content)
    ensures forall i ::
              0 <= i < |doc.nodes[ims].content| / 2
              && normalize(doc.nodes[doc.nodes[ims].content[2 * i]].value) == normalize(platform)
              && (forall j :: 0 <= j < i ==>
                    normalize(doc.nodes[doc.nodes[ims].content[2 * j]].value) != normalize(platform)) ==>
              key == doc.nodes[doc.nodes[ims].content[2 * i]].value
    ensures (forall i :: 0 <= i < |doc.nodes[ims].content| / 2 ==>
               normalize(doc.nodes[doc.nodes[ims].content[2 * i]].value) != normalize(platform)) ==>
              key == normalize(platform)
  {
    var content := doc.nodes[ims].content;
    for i := 0 to |content| / 2
      invariant forall j :: 0 <= j < i ==> normalize(doc.nodes[content[2 * j]].value) != normalize(platform)
    {
      if normalize(doc.nodes[content[2 * i]].value) == normalize(platform) {
        return doc.nodes[content[2 * i]].value;
      }
    }
    key := normalize(platform);
  }

  /** The name of the first entry that means the platform, or else its normal name. */
  function KeyFor(entries: seq<Entry>, platform: string, normalize: string -> string): string {
    if entries == [] then normalize(platform)
    else if normalize(entries[0].name) == normalize(platform) then entries[0].name
    else KeyFor(entries[1..], platform, normalize)
  }

  lemma {:induction false} KeyForAt(entries: seq<Entry>, platform: string, normalize: string -> string, i: nat)
    requires i <= |entries| && forall j :: 0 <= j < i ==> normalize(entries[j].name) != normalize(platform)
    requires i < |entries| ==> normalize(entries[i].name) == normalize(platform)
    ensures KeyFor(entries, platform, normalize) == if i < |entries| then entries[i].name else normalize(platform)
  {
    if i > 0 {
      assert normalize(entries[0].name) != normalize(platform);
      KeyForAt(entries[1..], platform, normalize, i - 1);
    }
  }

  lemma {:induction false} FirstMeaning(entries: seq<Entry>, platform: string, normalize: string -> string)
    returns (i: nat)
    ensures i <= |entries| && forall j :: 0 <= j < i ==> normalize(entries[j].name) != normalize(platform)
    ensures i < |entries| ==> normalize(entries[i].name) == normalize(platform)
  {
    i := 0;
    while i < |entries| && normalize(entries[i].name) != normalize(platform)
      invariant i <= |entries| && forall j :: 0 <= j < i ==> normalize(entries[j].name) != normalize(platform)
    {
      i := i + 1;
    }
  }

  /** copyConfigurationNodes, as a commit calls it: the root of an editable copy. */
  method CopyRoot(doc: Document, n: Id) returns (r: Option<Id>)
    requires doc.Bounded() && Parsed(doc.nodes, n)
    modifies doc
    ensures doc.Bounded() && Closed(doc.nodes) && (NullsAreScalars(old(doc.nodes)) ==> NullsAreScalars(doc.nodes))
    ensures r.None? <==> exists p: seq<Id> :: YamlCopy.Path(old(doc.nodes), p) && p[0] == n && Returns(p, {})
    ensures Parsed(old(doc.nodes), n)
    ensures r.Some? ==>
              && r.value in doc.nodes && Same(old(doc.nodes), old(doc.nodes)[n].content[0], doc.nodes, r.value)
              && Descends(doc.nodes, r.value) && !doc.nodes[r.value].kind.Alias?
  {
    hide Same, Descends, Layout, Mirrors, AliasFree, NullsAreScalars;
    ghost var h, low := doc.nodes, doc.next;
    var copy, t := doc.CopyConfiguration(n);
    if copy.None? {
      return None;
    }
    CopiedRoot(h, n, t, doc.nodes, copy.value, low);
    r := Some(doc.nodes[copy.value].content[0]);
  }

  /** independentMapping on the root of a copy that was not edited yet. */
  method OwnFirst(doc: Document, root: Id, key: string) returns (r: Option<Id>, ghost e: Edits)
    requires doc.Bounded() && Closed(doc.nodes) && Descends(doc.nodes, root) && root in doc.nodes
             && !doc.nodes[root].kind.Alias?
    modifies doc
    ensures r.Some? ==>
              && doc.Bounded() && e == Owning(old(doc.nodes), Start(root), [], key, r.value)
              && Inv(old(doc.nodes), root, doc.nodes, e) && AllPlain(doc.nodes, e)
    ensures Legible(old(doc.nodes), Some(root)) ==> OwnOutcome(old(doc.nodes), Some(root), key, doc.nodes, r)
    ensures !Legible(old(doc.nodes), Some(root)) ==> r.None?
  {
    hide Inv, AllPlain, Spelling, Materialized, SpelledOut, ChildNode, Plain, Descends, OwnOutcome;
    ghost var c := doc.nodes;
    e := Start(root);
    r := doc.IndependentMapping(root, key);
    if Materialized(c, root, {}).Some? {
      StartInv(c, root);
      UnderInjective([], key, [], key);
      OwnedOutcome(c, root, c, doc.nodes, e, [], key, r);
    }
    if r.Some? {
      OwnedMore(c, root, c, doc.nodes, e, [], key, r.value);
      e := Owning(c, e, [], key, r.value);
    }
  }

  lemma Chains(a: string, b: string, d: string, x: string)
    ensures Under([], a) == [a] && Under([a], b) == [a, b] && Under([a, b], d) == [a, b, d]
            && Under([a, b, d], x) == [a, b, d, x]
    ensures [a] + [b] == [a, b] && [a] + [b, d] == [a, b, d] && [a] + [b, d, x] == [a, b, d, x]
  {
  }

  /** What owning the platform's mapping comes to, in terms of the copy `c`. */
  ghost predicate PlatformOutcome(c: Heap, root: Id, platform: string, normalize: string -> string, f: Heap,
                                  r: Option<Id>, key: string) {
    && Closed(c) && root in c
    && (r.None? <==> !Editable(c, Some(root), ["ims", key]))
    && (Editable(c, Some(root), ["ims"]) ==>
          key == KeyFor(EntriesOf(c, BaseAt(c, Some(root), ["ims"])), platform, normalize))
    && (r.Some? ==>
          r.value in f && Lists(f, f[r.value].content, EntriesOf(c, BaseAt(c, Some(root), ["ims", key]))))
  }

  lemma ImsRefused(c: Heap, root: Id, platform: string, normalize: string -> string, f: Heap, key: string)
    requires Closed(c) && root in c && (!Legible(c, Some(root)) || OwnOutcome(c, Some(root), "ims", f, None))
    ensures PlatformOutcome(c, root, platform, normalize, f, None, key)
  {
    hide Legible, BaseChild, EntriesOf, KeyFor, Lists;
    OneKey(c, Some(root), "ims");
    MoreKeys(c, Some(root), "ims", [key]);
    OneKey(c, BaseChild(c, Some(root), "ims"), key);
    Chains("ims", key, "", "");
  }

  lemma PlatformOwned(c: Heap, root: Id, platform: string, normalize: string -> string, f: Heap, ims: Id,
                      f': Heap, r: Option<Id>, key: string)
    requires Closed(c) && root in c && Legible(c, Some(root)) && OwnOutcome(c, Some(root), "ims", f, Some(ims))
    requires OwnOutcome(c, BaseChild(c, Some(root), "ims"), key, f', r)
    requires key == KeyFor(EntriesOf(c, BaseChild(c, Some(root), "ims")), platform, normalize)
    ensures PlatformOutcome(c, root, platform, normalize, f', r, key)
  {
    hide Legible, BaseChild, EntriesOf, KeyFor, Lists;
    OneKey(c, Some(root), "ims");
    MoreKeys(c, Some(root), "ims", [key]);
    OneKey(c, BaseChild(c, Some(root), "ims"), key);
    Chains("ims", key, "", "");
  }

  lemma KeyChosen(f: Heap, content: seq<Id>, entries: seq<Entry>, platform: string, normalize: string -> string,
                  key: string)
    requires Lists(f, content, entries)
    requires forall i :: 0 <= i < |content| / 2 && normalize(f[content[2 * i]].value) == normalize(platform)
                         && (forall j :: 0 <= j < i ==> normalize(f[content[2 * j]].value) != normalize(platform)) ==>
               key == f[content[2 * i]].value
    requires (forall i :: 0 <= i < |content| / 2 ==> normalize(f[content[2 * i]].value) != normalize(platform)) ==>
               key == normalize(platform)
    ensures key == KeyFor(entries, platform, normalize)
  {
    hide KeyFor;
    var i := FirstMeaning(entries, platform, normalize);
    KeyForAt(entries, platform, normalize, i);
    forall j | 0 <= j < |entries|
      ensures f[content[2 * j]].value == entries[j].name
    {
    }
  }

  /** The mappings of ims and of the platform become nodes of their own. */
  method OwnPlatform(doc: Document, root: Id, platform: string, normalize: string -> string)
    returns (r: Option<Id>, key: string, ghost e: Edits)
    requires doc.Bounded() && Closed(doc.nodes) && Descends(doc.nodes, root) && root in doc.nodes
             && !doc.nodes[root].kind.Alias?
    modifies doc
    ensures r.Some? ==>
              && doc.Bounded() && Inv(old(doc.nodes), root, doc.nodes, e) && AllPlain(doc.nodes, e)
              && e.owned.Keys == {[], ["ims"], ["ims", key]} && e.owned[["ims", key]] == r.value && e.changed == {}
              && e.base.Keys == e.owned.Keys && e.base[[]] == Some(root)
              && e.base[["ims", key]] == BaseAt(old(doc.nodes), Some(root), ["ims", key])
    ensures PlatformOutcome(old(doc.nodes), root, platform, normalize, doc.nodes, r, key)
  {
    hide Inv, AllPlain, Descends, Plain, BaseChild, OwnOutcome, PlatformOutcome, BaseAt, KeyFor, Legible, EntriesOf,
         Closed;
    ghost var c := doc.nodes;
    key := normalize(platform);
    var ims, e0 := OwnFirst(doc, root, "ims");
    e := e0;
    ghost var f := doc.nodes;
    if ims.None? {
      ImsRefused(c, root, platform, normalize, f, key);
      return None, key, e;
    }
    Chains("ims", "", "", "");
    PlainParent(c, root, f, e, ["ims"]);
    PlainShape(f, ims.value);
    key := PlatformKey(doc, ims.value, platform, normalize);
    ImsListed(c, root, f, ims.value);
    KeyChosen(f, f[ims.value].content, EntriesOf(c, BaseChild(c, Some(root), "ims")), platform, normalize, key);
    Chains("ims", key, "", "");
    r, e := Own(doc, c, root, e, ["ims"], ims.value, key);
    PlatformOwned(c, root, platform, normalize, f, ims.value, doc.nodes, r, key);
    MoreKeys(c, Some(root), "ims", [key]);
    OneKey(c, BaseChild(c, Some(root), "ims"), key);
  }

  lemma ImsListed(c: Heap, root: Id, f: Heap, ims: Id)
    requires OwnOutcome(c, Some(root), "ims", f, Some(ims))
    ensures Closed(c) && root in c && (BaseChild(c, Some(root), "ims").Some? ==>
                                       BaseChild(c, Some(root), "ims").value in c)
    ensures ims in f && Lists(f, f[ims].content, EntriesOf(c, BaseChild(c, Some(root), "ims")))
  {
    hide BaseChild, EntriesOf, Lists, Legible;
  }

  // Binding a chat

  /** The places a binding edits: mappings it makes its own, and values it sets. */
  function BoundOwned(platform: string): set<Chain> {
    {[], ["ims"], ["ims", platform], ["ims", platform, "chat_bindings"], ["workspaces"]}
  }

  function BoundChanged(platform: string, owner: bool, chat: string, workspace: string, known: bool): set<Chain> {
    {["ims", platform, "chat_bindings", chat]}
    + (if owner then {["ims", platform, "owner"]} else {})
    + (if known then {} else {["workspaces", workspace]})
  }

  /** A plain mapping says this text under this key. */
  ghost predicate Tells(f: Heap, v: Id, key: string, text: string) {
    Closed(f) && Plain(f, v) && Reads(f, v, key).Found? && f[Reads(f, v, key).value].value == text
  }

  lemma TellsStays(f: Heap, f': Heap, v: Id, key: string, text: string)
    requires Tells(f, v, key, text) && Closed(f') && LabelsStay(f, f') && f'[v] == f[v]
    ensures Tells(f', v, key, text)
  {
    hide Reads, Plain;
    PlainShape(f, v);
    PlainStays(f, f', v, key);
  }

  /** Two heaps, the second of which has the same text nodes and other nodes besides. */
  lemma TwoTexts(f: Heap, v: Id, content: seq<Id>, a: string, x: string, b: string, y: string)
    requires Closed(f) && v in f && f[v].kind.Mapping? && f[v].content == content && AllIn(f, content) && a != b
    requires |content| == 4 && f[content[0]] == Node(Scalar, "!!str", a, "", 0, [])
             && f[content[1]] == Node(Scalar, "!!str", x, "", 0, [])
             && f[content[2]] == Node(Scalar, "!!str", b, "", 0, [])
             && f[content[3]] == Node(Scalar, "!!str", y, "", 0, [])
    ensures Tells(f, v, a, x) && Tells(f, v, b, y)
  {
    hide Reads, PairIndex;
    FoundAt(f, content, a, 0);
    FoundAt(f, content, b, 1);
    PlainReads(f, v, a);
    PlainReads(f, v, b);
  }

  lemma OneText(f: Heap, v: Id, content: seq<Id>, a: string, x: string)
    requires Closed(f) && v in f && f[v].kind.Mapping? && f[v].content == content && AllIn(f, content)
    requires |content| == 2 && f[content[0]] == Node(Scalar, "!!str", a, "", 0, [])
             && f[content[1]] == Node(Scalar, "!!str", x, "", 0, [])
    ensures Tells(f, v, a, x)
  {
    hide Reads, PairIndex;
    FoundAt(f, content, a, 0);
    PlainReads(f, v, a);
  }

  /** The platform's owner, if it has none yet. */
  method SetOwner(doc: Document, ghost c: Heap, ghost root: Id, ghost e: Edits, node: Id, ghost key: string,
                  owner: (string, string))
    returns (ghost e': Edits, ghost o: Id)
    requires doc.Bounded() && Inv(c, root, doc.nodes, e) && AllPlain(doc.nodes, e)
    requires e.owned.Keys == {[], ["ims"], ["ims", key]} && e.owned[["ims", key]] == node
    modifies doc
    ensures doc.Bounded() && Inv(c, root, doc.nodes, e') && AllPlain(doc.nodes, e')
    ensures e' == Changed(e, ["ims", key], "owner")
    ensures Owned(doc.nodes, node, o, owner) && o !in old(doc.nodes)
  {
    hide Inv, AllPlain, Plain, Tells, KeepsReads, Reads;
    PlainParent(c, root, doc.nodes, e, ["ims", key]);
    ghost var f := doc.nodes;
    var value := NewMapping(doc, ["account_id", owner.0, "user_id", owner.1]);
    TwoTexts(doc.nodes, value, doc.nodes[value].content, "account_id", owner.0, "user_id", owner.1);
    GrowKeeps(c, root, f, doc.nodes, e);
    Chains("ims", key, "owner", "");
    f := doc.nodes;
    Set(doc, c, root, e, ["ims", key], node, "owner", value);
    TellsStays(f, doc.nodes, value, "account_id", owner.0);
    TellsStays(f, doc.nodes, value, "user_id", owner.1);
    e', o := Changed(e, ["ims", key], "owner"), value;
  }

  /** The platform's mapping has this owner. */
  ghost predicate Owned(f: Heap, node: Id, o: Id, owner: (string, string)) {
    && Closed(f) && node in f && o in f && Reads(f, node, "owner") == Found(o)
    && Tells(f, o, "account_id", owner.0) && Tells(f, o, "user_id", owner.1)
  }

  /** The chat's binding, under the platform's bindings. */
  method SetBinding(doc: Document, ghost c: Heap, ghost root: Id, ghost e: Edits, node: Id, ghost key: string,
                    chat: string, workspace: string)
    returns (r: Option<Id>, ghost e': Edits, ghost bound: Id)
    requires doc.Bounded() && Inv(c, root, doc.nodes, e) && AllPlain(doc.nodes, e)
    requires e.owned.Keys == {[], ["ims"], ["ims", key]} && e.owned[["ims", key]] == node
    requires e.changed <= {["ims", key, "owner"]} && e.base.Keys == e.owned.Keys
    modifies doc
    ensures r.Some? ==>
              && doc.Bounded() && Inv(c, root, doc.nodes, e') && AllPlain(doc.nodes, e')
              && e'.owned == e.owned[["ims", key, "chat_bindings"] := r.value]
              && [] in e.base && [] in e'.base && e'.base[[]] == e.base[[]]
              && e'.changed == e.changed + {["ims", key, "chat_bindings", chat]}
              && Closed(doc.nodes) && r.value in doc.nodes && bound in doc.nodes && doc.nodes[bound].value == workspace
              && Reads(doc.nodes, r.value, chat) == Found(bound)
    ensures r.Some? ==> r.value !in old(doc.nodes) && LeavesOthers(old(doc.nodes), doc.nodes, node)
                        && KeepsReads(old(doc.nodes), doc.nodes, node, "chat_bindings")
    ensures ["ims", key] in e.base && Refusable(c, e.base[["ims", key]], "chat_bindings", r.None?)
  {
    hide Inv, AllPlain, Plain, BaseChild, Reads, OwnOutcome, KeepsReads;
    bound := 0;
    Chains("ims", key, "chat_bindings", chat);
    ghost var before := doc.nodes;
    PlainParent(c, root, before, e, ["ims", key]);
    r, e' := Own(doc, c, root, e, ["ims", key], node, "chat_bindings");
    Refused(c, e.base[["ims", key]], "chat_bindings", doc.nodes, r);
    if r.Some? {
      PlainParent(c, root, doc.nodes, e', ["ims", key, "chat_bindings"]);
      PlainParent(c, root, doc.nodes, e', ["ims", key]);
      ghost var f := doc.nodes;
      var value := doc.Allocate(Node(Scalar, "!!str", workspace, "", 0, []));
      AllocatedClosed(f, value, Node(Scalar, "!!str", workspace, "", 0, []));
      GrowKeeps(c, root, f, doc.nodes, e');
      Set(doc, c, root, e', ["ims", key, "chat_bindings"], r.value, chat, value);
      StillKept(before, f, doc.nodes, node, "chat_bindings");
      e', bound := Changed(e', ["ims", key, "chat_bindings"], chat), value;
    }
  }

  /** Making the value under this key editable fails exactly if it is not legible. */
  ghost predicate Refusable(c: Heap, base: Option<Id>, key: string, refused: bool) {
    && Closed(c) && (base.Some? ==> base.value in c)
    && var child := BaseChild(c, base, key);
       (child.Some? ==> child.value in c) && (refused <==> !Legible(c, child))
  }

  lemma Refused(c: Heap, base: Option<Id>, key: string, f: Heap, y: Option<Id>)
    requires OwnOutcome(c, base, key, f, y)
    ensures Refusable(c, base, key, y.None?)
  {
    hide BaseChild, EntriesOf, Lists, Legible;
  }

  /** A mapping that is not edited after that keeps what it reads. */
  lemma StillKept(f: Heap, mid: Heap, f': Heap, x: Id, key: string)
    requires KeepsReads(f, mid, x, key) && Plain(mid, x) && Closed(f') && LabelsStay(mid, f') && f'[x] == mid[x]
    ensures KeepsReads(f, f', x, key)
  {
    hide Reads, Plain;
    forall other: string | other != key
      ensures Reads(f', x, other) == Reads(f, x, other)
    {
      PlainStays(mid, f', x, other);
    }
  }

  /** The workspace, unless it is configured already. */
  method SetWorkspace(doc: Document, ghost c: Heap, root: Id, ghost e: Edits, workspace: string, path: string)
    returns (r: Option<Id>, known: bool, ghost e': Edits)
    requires doc.Bounded() && Inv(c, root, doc.nodes, e) && AllPlain(doc.nodes, e)
    requires [] in e.owned && e.owned[[]] == root && ["workspaces"] !in e.owned && ["workspaces"] !in e.changed
    modifies doc
    ensures r.Some? ==>
              && doc.Bounded() && Inv(c, root, doc.nodes, e') && AllPlain(doc.nodes, e')
              && e'.owned == e.owned[["workspaces"] := r.value]
              && e'.changed == e.changed + (if known then {} else {["workspaces", workspace]})
              && LabelsStay(old(doc.nodes), doc.nodes)
              && (forall id <- old(doc.nodes) :: id != root ==> doc.nodes[id] == old(doc.nodes)[id])
              && Listed(doc.nodes, r.value, workspace, path, known)
    ensures [] in e.base && Refusable(c, e.base[[]], "workspaces", r.None?)
    ensures r.Some? ==> (known <==> BaseReads(c, BaseChild(c, e.base[[]], "workspaces"), workspace).Found?)
  {
    hide Inv, AllPlain, Plain, BaseChild, Reads, OwnOutcome, KeepsReads, Tells, ValueOf;
    known := true;
    Chains("workspaces", workspace, "", "");
    NothingUnder(c, root, doc.nodes, e, ["workspaces"], workspace);
    r, e' := Own(doc, c, root, e, [], root, "workspaces");
    Refused(c, e.base[[]], "workspaces", doc.nodes, r);
    if r.Some? {
      OneRead(c, root, doc.nodes, e', ["workspaces"], workspace);
      PlainParent(c, root, doc.nodes, e', ["workspaces"]);
      PlainShape(doc.nodes, r.value);
      PlainReads(doc.nodes, r.value, workspace);
      known := ValueOf(doc.nodes, doc.nodes[r.value].content, workspace).Some?;
      if !known {
        ghost var f := doc.nodes;
        var value := NewMapping(doc, ["path", path]);
        OneText(doc.nodes, value, doc.nodes[value].content, "path", path);
        GrowKeeps(c, root, f, doc.nodes, e');
        f := doc.nodes;
        Set(doc, c, root, e', ["workspaces"], r.value, workspace, value);
        TellsStays(f, doc.nodes, value, "path", path);
        e' := Changed(e', ["workspaces"], workspace);
      }
    }
  }

  /** The workspaces' mapping has this workspace, and a new one has this path. */
  ghost predicate Listed(f: Heap, w: Id, workspace: string, path: string, known: bool) {
    && Closed(f) && w in f && Reads(f, w, workspace).Found?
    && (!known ==> Tells(f, Reads(f, w, workspace).value, "path", path))
  }

  // What the edited document says

  /** This chain of keys leads to a node with this text. */
  ghost predicate Says(f: Heap, root: Id, chain: Chain, text: string) {
    && Closed(f) && root in f
    && Lookup(f, root, chain).Found? && f[Lookup(f, root, chain).value].value == text
  }

  lemma Along(f: Heap, x: Id, key: string, y: Id, path: Chain)
    requires Closed(f) && x in f && Reads(f, x, key) == Found(y)
    ensures y in f && Lookup(f, x, [key] + path) == Lookup(f, y, path)
  {
    hide Reads, Lookup;
    LookupStep(f, x, [key] + path);
    assert ([key] + path)[1..] == path;
  }

  lemma NothingMore(f: Heap, n: Id)
    requires Closed(f) && n in f
    ensures Lookup(f, n, []) == Found(n)
  {
  }

  /** The last key of a chain. */
  lemma LastKey(f: Heap, x: Id, key: string, y: Id)
    requires Closed(f) && x in f && Reads(f, x, key) == Found(y)
    ensures y in f && Lookup(f, x, [key]) == Found(y)
  {
    hide Reads, Lookup;
    Along(f, x, key, y, []);
    NothingMore(f, y);
    assert [key] + [] == [key];
  }

  /** A chain of keys through the platform's mapping goes on from the node owned there. */
  lemma ThroughPlatform(c: Heap, root: Id, f: Heap, e: Edits, key: string, path: Chain)
    requires Inv(c, root, f, e) && ["ims"] in e.owned && ["ims", key] in e.owned
    ensures Closed(f) && root in f && e.owned[["ims", key]] in f
    ensures Lookup(f, root, ["ims", key] + path) == Lookup(f, e.owned[["ims", key]], path)
  {
    hide Inv, Reads, Lookup;
    RootOwned(c, root, f, e);
    Chains("ims", key, "", "");
    OneRead(c, root, f, e, [], "ims");
    OneRead(c, root, f, e, ["ims"], key);
    OneRead(c, root, f, e, ["ims", key], "");
    assert ["ims", key] + path == ["ims"] + ([key] + path);
    Along(f, root, "ims", e.owned[["ims"]], [key] + path);
    Along(f, e.owned[["ims"]], key, e.owned[["ims", key]], path);
  }

  lemma BindingSaid(c: Heap, root: Id, f: Heap, e: Edits, key: string, chat: string, workspace: string, bound: Id)
    requires Inv(c, root, f, e) && ["ims"] in e.owned && ["ims", key] in e.owned
             && ["ims", key, "chat_bindings"] in e.owned
    requires Closed(f) && e.owned[["ims", key, "chat_bindings"]] in f && bound in f && f[bound].value == workspace
             && Reads(f, e.owned[["ims", key, "chat_bindings"]], chat) == Found(bound)
    ensures Says(f, root, ["ims", key, "chat_bindings", chat], workspace)
  {
    hide Inv, Reads, Lookup;
    Chains("ims", key, "chat_bindings", chat);
    ThroughPlatform(c, root, f, e, key, ["chat_bindings", chat]);
    OneRead(c, root, f, e, ["ims", key], "chat_bindings");
    Along(f, e.owned[["ims", key]], "chat_bindings", e.owned[["ims", key, "chat_bindings"]], [chat]);
    LastKey(f, e.owned[["ims", key, "chat_bindings"]], chat, bound);
    assert ["ims", key] + ["chat_bindings", chat] == ["ims", key, "chat_bindings", chat];
    assert ["chat_bindings"] + [chat] == ["chat_bindings", chat];
  }

  lemma OwnerSaid(c: Heap, root: Id, f: Heap, e: Edits, key: string, o: Id, owner: (string, string), field: string,
                  text: string)
    requires Inv(c, root, f, e) && ["ims"] in e.owned && ["ims", key] in e.owned
    requires Owned(f, e.owned[["ims", key]], o, owner) && Tells(f, o, field, text)
    ensures Says(f, root, ["ims", key, "owner", field], text)
  {
    hide Inv, Reads, Lookup, Plain;
    ThroughPlatform(c, root, f, e, key, ["owner", field]);
    Along(f, e.owned[["ims", key]], "owner", o, [field]);
    LastKey(f, o, field, Reads(f, o, field).value);
    assert ["ims", key] + ["owner", field] == ["ims", key, "owner", field];
    assert ["owner"] + [field] == ["owner", field];
  }

  lemma WorkspaceSaid(c: Heap, root: Id, f: Heap, e: Edits, workspace: string, path: string, known: bool)
    requires Inv(c, root, f, e) && ["workspaces"] in e.owned
    requires Listed(f, e.owned[["workspaces"]], workspace, path, known)
    ensures Closed(f) && root in f && Lookup(f, root, ["workspaces", workspace]).Found?
    ensures !known ==> Says(f, root, ["workspaces", workspace, "path"], path)
  {
    hide Inv, Reads, Lookup, Plain;
    RootOwned(c, root, f, e);
    Chains("workspaces", workspace, "path", "");
    OneRead(c, root, f, e, [], "workspaces");
    var w := e.owned[["workspaces"]];
    var v := Reads(f, w, workspace).value;
    Along(f, root, "workspaces", w, [workspace]);
    LastKey(f, w, workspace, v);
    assert ["workspaces"] + [workspace] == ["workspaces", workspace];
    if !known {
      assert ["workspaces"] + [workspace, "path"] == ["workspaces", workspace, "path"];
      assert [workspace] + ["path"] == [workspace, "path"];
      Along(f, root, "workspaces", w, [workspace, "path"]);
      Along(f, w, workspace, v, ["path"]);
      LastKey(f, v, "path", Reads(f, v, "path").value);
    }
  }

  /** The document says that the chat is bound to the workspace, that the platform has this
      owner, if one was to be set, and that there is this workspace, with this path if it is new. */
  ghost predicate Bound(f: Heap, root: Id, key: string, owner: Option<(string, string)>, chat: string,
                        workspace: string, path: string, known: bool) {
    && Closed(f) && root in f
    && Says(f, root, ["ims", key, "chat_bindings", chat], workspace)
    && (owner.Some? ==>
          && Says(f, root, ["ims", key, "owner", "account_id"], owner.value.0)
          && Says(f, root, ["ims", key, "owner", "user_id"], owner.value.1))
    && Lookup(f, root, ["workspaces", workspace]).Found?
    && (!known ==> Says(f, root, ["workspaces", workspace, "path"], path))
  }

  lemma OwnersDiffer(c: Heap, k: Id, f: Heap, e: Edits, p: Chain, q: Chain)
    requires Inv(c, k, f, e) && p in e.owned && q in e.owned && p != q
    ensures e.owned[p] != e.owned[q]
  {
    Untangled(c, k, f, e, p, q);
  }

  /** The owner stays through edits elsewhere. */
  lemma OwnedStays(f: Heap, f': Heap, node: Id, o: Id, owner: (string, string), key: string)
    requires Owned(f, node, o, owner) && KeepsReads(f, f', node, key) && key != "owner"
    requires LabelsStay(f, f') && f'[o] == f[o]
    ensures Owned(f', node, o, owner)
  {
    hide Reads, Plain, Tells;
    TellsStays(f, f', o, "account_id", owner.0);
    TellsStays(f, f', o, "user_id", owner.1);
  }

  lemma PlainKeeps(f: Heap, f': Heap, x: Id)
    requires Closed(f) && Plain(f, x) && Closed(f') && LabelsStay(f, f') && f'[x] == f[x]
    ensures KeepsReads(f, f', x, "")
  {
    hide Reads, Plain;
    PlainShape(f, x);
    forall other: string
      ensures Reads(f', x, other) == Reads(f, x, other)
    {
      PlainStays(f, f', x, other);
    }
  }

  /** What stops a binding once the platform is owned. */
  ghost predicate BindRefusable(c: Heap, root: Id, platform: Option<Id>, done: bool) {
    && Closed(c) && root in c && (platform.Some? ==> platform.value in c)
    && var bindings, workspaces := BaseChild(c, platform, "chat_bindings"), BaseChild(c, Some(root), "workspaces");
       && (bindings.Some? ==> bindings.value in c) && (workspaces.Some? ==> workspaces.value in c)
       && (done <==> Legible(c, bindings) && Legible(c, workspaces))
  }

  lemma BindRefused(c: Heap, root: Id, platform: Option<Id>, workspaces: bool)
    requires Refusable(c, platform, "chat_bindings", false) && Refusable(c, Some(root), "workspaces", workspaces)
    ensures BindRefusable(c, root, platform, !workspaces)
  {
    hide BaseChild, Legible;
  }

  lemma BindingsRefused(c: Heap, root: Id, platform: Option<Id>)
    requires Closed(c) && root in c && Refusable(c, platform, "chat_bindings", true)
    ensures BindRefusable(c, root, platform, false)
  {
    hide BaseChild, Legible;
    BaseChildIn(c, Some(root), "workspaces");
  }

  /** The edits below the platform. */
  method BindPlatform(doc: Document, ghost c: Heap, ghost root: Id, ghost e: Edits, node: Id, ghost key: string,
                      owner: Option<(string, string)>, chat: string, workspace: string)
    returns (r: Option<Id>, ghost e': Edits, ghost o: Id, ghost bound: Id)
    requires doc.Bounded() && Inv(c, root, doc.nodes, e) && AllPlain(doc.nodes, e)
    requires e.owned.Keys == {[], ["ims"], ["ims", key]} && e.owned[["ims", key]] == node && e.changed == {}
    requires e.base.Keys == e.owned.Keys && node in doc.nodes && root in doc.nodes
    modifies doc
    ensures r.Some? ==>
              && doc.Bounded() && Inv(c, root, doc.nodes, e') && AllPlain(doc.nodes, e')
              && e'.owned == e.owned[["ims", key, "chat_bindings"] := r.value]
              && [] in e'.base && e'.base[[]] == e.base[[]]
              && e'.changed == {["ims", key, "chat_bindings", chat]}
                               + (if owner.Some? then {["ims", key, "owner"]} else {})
              && Closed(doc.nodes) && r.value in doc.nodes && bound in doc.nodes && doc.nodes[bound].value == workspace
              && Reads(doc.nodes, r.value, chat) == Found(bound)
    ensures r.Some? && owner.Some? ==> Owned(doc.nodes, node, o, owner.value) && o != root
    ensures Refusable(c, e.base[["ims", key]], "chat_bindings", r.None?)
  {
    hide Inv, AllPlain, Reads, Plain, KeepsReads, Owned, BaseChild, Refusable;
    o, e' := 0, e;
    if owner.Some? {
      e', o := SetOwner(doc, c, root, e, node, key, owner.value);
      Chains("ims", key, "owner", "");
    }
    ghost var before := doc.nodes;
    r, e', bound := SetBinding(doc, c, root, e', node, key, chat, workspace);
    if r.Some? && owner.Some? {
      OwnedIn(before, node, o, owner.value);
      OwnedStays(before, doc.nodes, node, o, owner.value, "chat_bindings");
    }
  }

  lemma OwnedIn(f: Heap, node: Id, o: Id, owner: (string, string))
    requires Owned(f, node, o, owner)
    ensures o in f
  {
  }

  /** The edits below the platform and the workspaces, once the platform is a node of its own. */
  method Bind(doc: Document, ghost c: Heap, root: Id, ghost e: Edits, node: Id, key: string,
              owner: Option<(string, string)>, chat: string, workspace: string, path: string)
    returns (done: bool, known: bool, ghost e': Edits)
    requires doc.Bounded() && Inv(c, root, doc.nodes, e) && AllPlain(doc.nodes, e)
    requires e.owned.Keys == {[], ["ims"], ["ims", key]} && e.owned[["ims", key]] == node && e.changed == {}
    requires e.base.Keys == e.owned.Keys && e.base[[]] == Some(root)
    modifies doc
    ensures done ==>
              && Inv(c, root, doc.nodes, e') && root in doc.nodes && Closed(doc.nodes)
              && e'.owned.Keys == BoundOwned(key)
              && e'.changed == BoundChanged(key, owner.Some?, chat, workspace, known)
    ensures BindRefusable(c, root, e.base[["ims", key]], done)
    ensures done ==> Bound(doc.nodes, root, key, owner, chat, workspace, path, known)
    ensures done ==> (known <==> BaseReads(c, BaseChild(c, Some(root), "workspaces"), workspace).Found?)
  {
    hide Inv, AllPlain, Lookup, Reads, Plain, Owned, Listed, BaseReads, BaseChild, Refusable, BindRefusable, Says;
    done, known, e' := false, false, e;
    RootOwned(c, root, doc.nodes, e);
    PlainParent(c, root, doc.nodes, e, ["ims", key]);
    OwnersDiffer(c, root, doc.nodes, e, [], ["ims", key]);
    var bindings: Option<Id>;
    ghost var o: Id, bound: Id;
    bindings, e', o, bound := BindPlatform(doc, c, root, e, node, key, owner, chat, workspace);
    if bindings.None? {
      BindingsRefused(c, root, e.base[["ims", key]]);
      return;
    }
    PlainParent(c, root, doc.nodes, e', ["ims", key, "chat_bindings"]);
    PlainParent(c, root, doc.nodes, e', ["ims", key]);
    RootOwned(c, root, doc.nodes, e');
    OwnersDiffer(c, root, doc.nodes, e', [], ["ims", key, "chat_bindings"]);
    ghost var f := doc.nodes;
    var workspaces: Option<Id>;
    workspaces, known, e' := SetWorkspace(doc, c, root, e', workspace, path);
    BindRefused(c, root, e.base[["ims", key]], workspaces.None?);
    if workspaces.None? {
      return;
    }
    RootOwned(c, root, doc.nodes, e');
    PlainStays(f, doc.nodes, bindings.value, chat);
    BindingSaid(c, root, doc.nodes, e', key, chat, workspace, bound);
    WorkspaceSaid(c, root, doc.nodes, e', workspace, path, known);
    if owner.Some? {
      OwnerStillSaid(c, root, f, doc.nodes, e', key, node, o, owner.value);
    }
    done := true;
  }

  lemma OwnerStillSaid(c: Heap, root: Id, f: Heap, f': Heap, e: Edits, key: string, node: Id, o: Id,
                       owner: (string, string))
    requires Owned(f, node, o, owner) && o != root && Plain(f, node) && node != root
    requires LeavesOthers(f, f', root) && Closed(f')
    requires Inv(c, root, f', e) && ["ims"] in e.owned && ["ims", key] in e.owned && e.owned[["ims", key]] == node
    ensures Says(f', root, ["ims", key, "owner", "account_id"], owner.0)
    ensures Says(f', root, ["ims", key, "owner", "user_id"], owner.1)
  {
    hide Inv, Reads, Plain, Says, Tells;
    PlainKeeps(f, f', node);
    OwnedStays(f, f', node, o, owner, "");
    OwnerSaid(c, root, f', e, key, o, owner, "account_id", owner.0);
    OwnerSaid(c, root, f', e, key, o, owner, "user_id", owner.1);
  }

  // When the edits are refused

  lemma TwoKeys(c: Heap, base: Option<Id>, a: string, b: string)
    requires Closed(c) && (base.Some? ==> base.value in c)
    ensures var one := BaseChild(c, base, a);
            && (one.Some? ==> one.value in c)
            && BaseAt(c, base, [a, b]) == BaseChild(c, one, b)
            && (Editable(c, base, [a, b]) <==>
                  Legible(c, base) && Legible(c, one) && Legible(c, BaseAt(c, base, [a, b])))
  {
    hide BaseChild, Legible;
    MoreKeys(c, base, a, [b]);
    OneKey(c, BaseChild(c, base, a), b);
    assert [a] + [b] == [a, b];
  }

  lemma ThreeKeys(c: Heap, base: Option<Id>, a: string, b: string, d: string)
    requires Closed(c) && (base.Some? ==> base.value in c)
    ensures var child := BaseChild(c, BaseAt(c, base, [a, b]), d);
            && (child.Some? ==> child.value in c)
            && (Editable(c, base, [a, b, d]) <==> Editable(c, base, [a, b]) && Legible(c, child))
  {
    hide BaseChild, Legible;
    TwoKeys(c, base, a, b);
    MoreKeys(c, base, a, [b, d]);
    TwoKeys(c, BaseChild(c, base, a), b, d);
    assert [a] + [b, d] == [a, b, d];
  }

  /** A binding is made exactly if all mappings it goes through can be read in the copy. */
  lemma BindOutcome(c: Heap, root: Id, platform: string, normalize: string -> string, f: Heap, node: Option<Id>,
                    key: string, done: bool)
    requires PlatformOutcome(c, root, platform, normalize, f, node, key)
    requires node.Some? ==> BindRefusable(c, root, BaseAt(c, Some(root), ["ims", key]), done)
    ensures Closed(c) && root in c
    ensures node.Some? && done <==>
              Editable(c, Some(root), ["ims", key, "chat_bindings"]) && Editable(c, Some(root), ["workspaces"])
  {
    hide BaseChild, Legible, EntriesOf, Lists, KeyFor;
    ThreeKeys(c, Some(root), "ims", key, "chat_bindings");
    OneKey(c, Some(root), "workspaces");
    TwoKeys(c, Some(root), "ims", key);
  }

  /** What can be edited in the document can be edited in its copy. */
  lemma DocumentEditable(h: Heap, n: Id, c: Heap, k: Id, path: Chain)
    requires Closed(h) && n in h && Closed(c) && k in c && Same(h, n, c, k)
    ensures Closed(Spelled(h)) && n in Spelled(h)
    ensures Editable(Spelled(h), Some(n), path) ==>
              && Editable(c, Some(k), path)
              && SameEntries(Spelled(h), EntriesOf(Spelled(h), BaseAt(Spelled(h), Some(n), path)),
                             c, EntriesOf(c, BaseAt(c, Some(k), path)))
  {
    hide Same, Editable, SameEntries, EntriesOf, BaseAt;
    SpelledShape(h);
    SameAsSpelled(h, n, c, k);
    SpelledReads(h);
    SpelledTags(h);
    if Editable(Spelled(h), Some(n), path) {
      EditableInCopy(Spelled(h), Some(n), c, Some(k), path);
    }
  }

  /** A workspace was known exactly if the chain of keys to it led somewhere. */
  lemma KnownBefore(c: Heap, root: Id, workspace: string)
    requires Closed(c) && Descends(c, root) && NullsAreScalars(c)
    ensures root in c
    ensures var w := BaseChild(c, Some(root), "workspaces");
            && (w.Some? ==> w.value in c)
            && (BaseReads(c, w, workspace).Found? <==> Lookup(c, root, ["workspaces", workspace]).Found?)
  {
    hide Reads, Lookup, Descends, NullsAreScalars;
    NoAlias(c, root);
    BaseChildIn(c, Some(root), "workspaces");
    ReadsBelow(c, root, "workspaces");
    var path := ["workspaces", workspace];
    LookupStep(c, root, path);
    assert path[1..] == [workspace];
    var r := Reads(c, root, "workspaces");
    if r.Found? {
      NullIsNoMapping(c, r.value, [workspace]);
      LookupStep(c, r.value, [workspace]);
      if Reads(c, r.value, workspace).Found? {
        LastKey(c, r.value, workspace, Reads(c, r.value, workspace).value);
      }
    }
  }

  lemma KnownInDocument(h: Heap, n: Id, c: Heap, k: Id, path: Chain)
    requires Closed(h) && n in h && Closed(c) && k in c && Same(h, n, c, k)
    ensures Closed(Spelled(h)) && n in Spelled(h)
    ensures !Lookup(Spelled(h), n, path).Broken? ==> (Lookup(c, k, path).Found? <==> Lookup(Spelled(h), n, path).Found?)
  {
    hide Same, Lookup;
    SpelledShape(h);
    SameAsSpelled(h, n, c, k);
    SpelledReads(h);
    if !Lookup(Spelled(h), n, path).Broken? {
      SameLookup(Spelled(h), n, c, k, path);
    }
  }

  lemma {:induction false} KeyForMeans(entries: seq<Entry>, platform: string, normalize: string -> string)
    ensures var key := KeyFor(entries, platform, normalize);
            key == normalize(platform) || normalize(key) == normalize(platform)
  {
    if entries != [] {
      KeyForMeans(entries[1..], platform, normalize);
    }
  }

  /** The document comes back to a node on the way, through children and aliases. */
  ghost predicate Cyclic(h: Heap, n: Id) {
    exists p: seq<Id> :: YamlCopy.Path(h, p) && p[0] == n && Returns(p, {})
  }

  /** What a chain of keys leads to in the document, with its alias keys spelled out. */
  function Original(h: Heap, n: Id, chain: Chain): Found
    requires Parsed(h, n)
  {
    SpelledShape(h);
    Lookup(Spelled(h), h[n].content[0], chain)
  }

  /** All mappings along this chain of keys can be read in the document. */
  predicate Permits(h: Heap, n: Id, chain: Chain)
    requires Parsed(h, n)
  {
    SpelledShape(h);
    Editable(Spelled(h), Some(h[n].content[0]), chain)
  }

  /** No explicit name of the mapping there occurs twice, as in every one that was decoded. */
  predicate NamedOnce(h: Heap, n: Id, chain: Chain)
    requires Parsed(h, n)
  {
    SpelledShape(h);
    ExplicitOnce(Spelled(h), BaseAt(Spelled(h), Some(h[n].content[0]), chain))
  }

  /** `c` from `root` is a copy of this document. */
  ghost predicate CopyOf(h: Heap, n: Id, c: Heap, root: Id) {
    Parsed(h, n) && Closed(c) && root in c && Same(h, h[n].content[0], c, root)
  }

  /** The owner and the binding are set under the platform, the workspace's path under the
      workspaces. That is refused, and leaves a copy that is not written, exactly for cycles
      and for mappings on the way that cannot be read in the copy `c`. Whatever else the
      document says, through whatever aliases and merges, the result says it too. */
  method BindChat(doc: Document, n: Id, platform: string, normalize: string -> string, owner: Option<(string, string)>,
                  chat: string, workspace: string, path: string)
    returns (r: Option<Id>, key: string, known: bool, ghost c: Heap, ghost root: Id)
    requires doc.Bounded() && Parsed(doc.nodes, n) && NullsAreScalars(doc.nodes)
    modifies doc
    ensures Parsed(old(doc.nodes), n) && Closed(Spelled(old(doc.nodes)))
            && old(doc.nodes)[n].content[0] in Spelled(old(doc.nodes))
    ensures Cyclic(old(doc.nodes), n) ==> r.None?
    ensures !Cyclic(old(doc.nodes), n) ==>
              && CopyOf(old(doc.nodes), n, c, root)
              && (r.Some? <==>
                    Editable(c, Some(root), ["ims", key, "chat_bindings"]) && Editable(c, Some(root), ["workspaces"]))
              && (Editable(c, Some(root), ["ims"]) ==>
                    key == KeyFor(EntriesOf(c, BaseAt(c, Some(root), ["ims"])), platform, normalize))
    ensures (&& !Cyclic(old(doc.nodes), n)
             && Permits(old(doc.nodes), n, ["ims", key, "chat_bindings"])
             && Permits(old(doc.nodes), n, ["workspaces"])) ==> r.Some?
    ensures r.Some? ==> key == normalize(platform) || normalize(key) == normalize(platform)
    ensures r.Some? ==> (forall chain: Chain ::
              && Clear(chain, BoundOwned(key), BoundChanged(key, owner.Some?, chat, workspace, known))
              && !Original(old(doc.nodes), n, chain).Broken?
              ==> ReadsAlike(Spelled(old(doc.nodes)), old(doc.nodes)[n].content[0], doc.nodes, r.value, chain))
    ensures r.Some? ==> r.value == root && Bound(doc.nodes, root, key, owner, chat, workspace, path, known)
    ensures r.Some? ==> (known <==> Lookup(c, root, ["workspaces", workspace]).Found?)
    ensures r.Some? && !Original(old(doc.nodes), n, ["workspaces", workspace]).Broken? ==>
              (known <==> Original(old(doc.nodes), n, ["workspaces", workspace]).Found?)
  {
    hide Inv, AllPlain, Same, Descends, Lookup, Reads, NullsAreScalars, ReadsAlike, Clear, Spelled, Plain, Materialized,
         Bound, PlatformOutcome, BindRefusable, Editable, BaseAt, EntriesOf, BaseReads, BaseChild, Returns;
    ghost var h, start := doc.nodes, doc.nodes[n].content[0];
    SpelledShape(h);
    r, key, known := None, platform, false;
    var copied := CopyRoot(doc, n);
    c, root := doc.nodes, 0;
    if copied.None? {
      return;
    }
    root := copied.value;
    DocumentEditable(h, start, c, root, ["workspaces"]);
    KnownBefore(c, root, workspace);
    KnownInDocument(h, start, c, root, ["workspaces", workspace]);
    var node: Option<Id>;
    ghost var e: Edits;
    node, key, e := OwnPlatform(doc, copied.value, platform, normalize);
    ghost var f := doc.nodes;
    PlatformKeyed(c, root, platform, normalize, f, node, key);
    DocumentEditable(h, start, c, root, ["ims", key, "chat_bindings"]);
    if node.None? {
      BindOutcome(c, root, platform, normalize, f, node, key, false);
      return;
    }
    var done: bool;
    done, known, e := Bind(doc, c, copied.value, e, node.value, key, owner, chat, workspace, path);
    BindOutcome(c, root, platform, normalize, f, node, key, done);
    if !done {
      return;
    }
    AllAlike(h, start, c, root, doc.nodes, e);
    r := copied;
  }

  lemma PlatformKeyed(c: Heap, root: Id, platform: string, normalize: string -> string, f: Heap, r: Option<Id>,
                      key: string)
    requires PlatformOutcome(c, root, platform, normalize, f, r, key)
    ensures Closed(c) && root in c
    ensures Editable(c, Some(root), ["ims"]) ==>
              key == KeyFor(EntriesOf(c, BaseAt(c, Some(root), ["ims"])), platform, normalize)
    ensures r.Some? ==> key == normalize(platform) || normalize(key) == normalize(platform)
    ensures r.None? <==> !Editable(c, Some(root), ["ims", key])
  {
    hide BaseChild, Legible, EntriesOf, Lists, KeyFor;
    OneKey(c, Some(root), "ims");
    TwoKeys(c, Some(root), "ims", key);
    KeyForMeans(EntriesOf(c, BaseAt(c, Some(root), ["ims"])), platform, normalize);
  }

  // Forgetting a platform's owner and bindings

  /** A key of the platform is gone from the edited document exactly if its name occurred
      once among the platform's entries. */
  ghost predicate Gone(f: Heap, root: Id, key: string, name: string, entries: seq<Entry>) {
    Closed(f) && root in f && (Lookup(f, root, ["ims", key, name]).Missing? <==> OnceNamed(entries, name))
  }

  lemma GoneSaid(c: Heap, root: Id, f: Heap, e: Edits, key: string, name: string, entries: seq<Entry>)
    requires Inv(c, root, f, e) && ["ims"] in e.owned && ["ims", key] in e.owned && AllPlain(f, e)
    requires Closed(f) && e.owned[["ims", key]] in f
             && (Reads(f, e.owned[["ims", key]], name).Missing? <==> OnceNamed(entries, name))
    ensures Gone(f, root, key, name, entries)
  {
    hide Inv, AllPlain, Reads, Lookup, OnceNamed;
    ThroughPlatform(c, root, f, e, key, [name]);
    assert ["ims", key] + [name] == ["ims", key, name];
    var p := e.owned[["ims", key]];
    LookupStep(f, p, [name]);
    if Reads(f, p, name).Found? {
      LastKey(f, p, name, Reads(f, p, name).value);
    }
  }

  lemma BothRemoved(f: Heap, mid: Heap, f': Heap, x: Id, entries: seq<Entry>)
    requires x in f && Lists(f, f[x].content, entries)
    requires Removed(f, mid, x, "owner") && Removed(mid, f', x, "chat_bindings")
    ensures Closed(f') && x in f'
    ensures Reads(f', x, "owner").Missing? <==> OnceNamed(entries, "owner")
    ensures Reads(f', x, "chat_bindings").Missing? <==> OnceNamed(entries, "chat_bindings")
  {
    hide Reads, Lists, OnceIn, OnceNamed;
    ListsOnce(f, f[x].content, entries, "owner");
    ListsOnce(f, f[x].content, entries, "chat_bindings");
  }

  lemma BothGone(c: Heap, root: Id, f: Heap, mid: Heap, f': Heap, e: Edits, key: string, entries: seq<Entry>)
    requires Inv(c, root, f', e) && ["ims"] in e.owned && ["ims", key] in e.owned && AllPlain(f', e)
    requires e.owned[["ims", key]] in f && Lists(f, f[e.owned[["ims", key]]].content, entries)
    requires Removed(f, mid, e.owned[["ims", key]], "owner") && Removed(mid, f', e.owned[["ims", key]], "chat_bindings")
    ensures Gone(f', root, key, "owner", entries) && Gone(f', root, key, "chat_bindings", entries)
  {
    hide Inv, AllPlain, Lists, Removed, Reads, Lookup, OnceNamed, Gone;
    BothRemoved(f, mid, f', e.owned[["ims", key]], entries);
    GoneSaid(c, root, f', e, key, "owner", entries);
    GoneSaid(c, root, f', e, key, "chat_bindings", entries);
  }

  lemma DecodedOnce(h: Heap, n: Id, c: Heap, k: Id, path: Chain)
    requires Closed(h) && n in h && Closed(c) && k in c && Same(h, n, c, k)
    ensures Closed(Spelled(h)) && n in Spelled(h)
    ensures Editable(Spelled(h), Some(n), path) && ExplicitOnce(Spelled(h), BaseAt(Spelled(h), Some(n), path)) ==>
              forall name: string :: OnceNamed(EntriesOf(c, BaseAt(c, Some(k), path)), name)
  {
    hide Same, Editable, SameEntries, EntriesOf, BaseAt, ExplicitOnce, OnceNamed;
    DocumentEditable(h, n, c, k, path);
    var s := Spelled(h);
    if Editable(s, Some(n), path) && ExplicitOnce(s, BaseAt(s, Some(n), path)) {
      forall name: string
        ensures OnceNamed(EntriesOf(c, BaseAt(c, Some(k), path)), name)
      {
        OnceInCopy(s, BaseAt(s, Some(n), path), c, BaseAt(c, Some(k), path), name);
      }
    }
  }

  /** The platform becomes a node of its own and loses its owner and its bindings, which are
      gone if no explicit name of the platform occurs twice, as in every mapping that was
      decoded; whatever else the document says stays. */
  method ResetPlatform(doc: Document, n: Id, platform: string, normalize: string -> string)
    returns (r: Option<Id>, key: string, ghost c: Heap, ghost root: Id)
    requires doc.Bounded() && Parsed(doc.nodes, n) && NullsAreScalars(doc.nodes)
    modifies doc
    ensures Parsed(old(doc.nodes), n) && Closed(Spelled(old(doc.nodes)))
            && old(doc.nodes)[n].content[0] in Spelled(old(doc.nodes))
    ensures Cyclic(old(doc.nodes), n) ==> r.None?
    ensures !Cyclic(old(doc.nodes), n) ==>
              && CopyOf(old(doc.nodes), n, c, root)
              && (r.Some? <==> Editable(c, Some(root), ["ims", key]))
              && (Editable(c, Some(root), ["ims"]) ==>
                    key == KeyFor(EntriesOf(c, BaseAt(c, Some(root), ["ims"])), platform, normalize))
    ensures !Cyclic(old(doc.nodes), n) && Permits(old(doc.nodes), n, ["ims", key]) ==> r.Some?
    ensures r.Some? ==> key == normalize(platform) || normalize(key) == normalize(platform)
    ensures r.Some? ==> (forall chain: Chain ::
              && Clear(chain, {[], ["ims"], ["ims", key]}, {["ims", key, "owner"], ["ims", key, "chat_bindings"]})
              && !Original(old(doc.nodes), n, chain).Broken?
              ==> ReadsAlike(Spelled(old(doc.nodes)), old(doc.nodes)[n].content[0], doc.nodes, r.value, chain))
    ensures r.Some? ==>
              && r.value == root && CopyOf(old(doc.nodes), n, c, root)
              && Gone(doc.nodes, root, key, "owner", EntriesOf(c, BaseAt(c, Some(root), ["ims", key])))
              && Gone(doc.nodes, root, key, "chat_bindings", EntriesOf(c, BaseAt(c, Some(root), ["ims", key])))
    ensures r.Some? && Permits(old(doc.nodes), n, ["ims", key]) && NamedOnce(old(doc.nodes), n, ["ims", key]) ==>
              && Closed(doc.nodes) && root in doc.nodes
              && Lookup(doc.nodes, root, ["ims", key, "owner"]).Missing?
              && Lookup(doc.nodes, root, ["ims", key, "chat_bindings"]).Missing?
  {
    hide Inv, AllPlain, Same, Descends, Lookup, NullsAreScalars, ReadsAlike, Clear, Spelled, Plain, PlatformOutcome,
         Editable, BaseAt, EntriesOf, Returns, Removed, Reads, OnceNamed, ExplicitOnce;
    ghost var h, start := doc.nodes, doc.nodes[n].content[0];
    SpelledShape(h);
    r, key := None, platform;
    var copied := CopyRoot(doc, n);
    c, root := doc.nodes, 0;
    if copied.None? {
      return;
    }
    root := copied.value;
    var node: Option<Id>;
    ghost var e: Edits;
    node, key, e := OwnPlatform(doc, copied.value, platform, normalize);
    ghost var f := doc.nodes;
    PlatformKeyed(c, root, platform, normalize, f, node, key);
    DocumentEditable(h, start, c, root, ["ims", key]);
    DecodedOnce(h, start, c, root, ["ims", key]);
    if node.None? {
      return;
    }
    Chains("ims", key, "owner", "");
    Chains("ims", key, "chat_bindings", "");
    Remove(doc, c, root, e, ["ims", key], node.value, "owner");
    ghost var mid := doc.nodes;
    e := Changed(e, ["ims", key], "owner");
    Remove(doc, c, root, e, ["ims", key], node.value, "chat_bindings");
    e := Changed(e, ["ims", key], "chat_bindings");
    assert e.owned.Keys == {[], ["ims"], ["ims", key]};
    assert e.changed == {["ims", key, "owner"], ["ims", key, "chat_bindings"]};
    PlatformListed(c, root, platform, normalize, f, node.value, key);
    BothGone(c, root, f, mid, doc.nodes, e, key, EntriesOf(c, BaseAt(c, Some(root), ["ims", key])));
    AllAlike(h, start, c, root, doc.nodes, e);
    r := copied;
  }

  lemma PlatformListed(c: Heap, root: Id, platform: string, normalize: string -> string, f: Heap, node: Id, key: string)
    requires PlatformOutcome(c, root, platform, normalize, f, Some(node), key)
    ensures node in f && Lists(f, f[node].content, EntriesOf(c, BaseAt(c, Some(root), ["ims", key])))
  {
    hide BaseChild, Legible, EntriesOf, Lists, KeyFor;
  }
}
