/** Editing a copy of a document step by step: mappings on the way to a value are
    spelled out into nodes of their own, then values are set in them
    (internal/gateway/config_store.go:164-204, internal/gateway/chat_binding.go:156-184). */
module YamlEdits {
  import opened YamlMerge
  import opened YamlCopy
  import opened YamlEdit
  import opened YamlEffective
  import opened YamlFlow

  type Chain = seq<string>

  /** The mappings that are nodes of their own by now, by their chains of keys; for each
      the mapping of the copy it was spelled out from, if any; and the values set. */
  datatype Edits = Edits(owned: map<Chain, Id>, base: map<Chain, Option<Id>>, changed: set<Chain>)

  function Under(q: Chain, key: string): Chain {
    q + [key]
  }

  lemma UnderInjective(p: Chain, a: string, q: Chain, b: string)
    ensures Under(p, a) == Under(q, b) <==> p == q && a == b
    ensures Under(q, b) != q && Under(q, b) != []
  {
    if Under(p, a) == Under(q, b) {
      assert Under(p, a)[..|Under(p, a)| - 1] == p && Under(q, b)[..|Under(q, b)| - 1] == q;
      assert Under(p, a)[|Under(p, a)| - 1] == a;
    }
    assert |Under(q, b)| == |q| + 1;
  }

  // The copy `c` from its root `k`, and the heap `f` as it is now

  function BaseReads(c: Heap, base: Option<Id>, key: string): Found
    requires Closed(c) && (base.Some? ==> base.value in c)
  {
    if base.None? then Missing else Reads(c, base.value, key)
  }

  /** The mapping of the copy that a key leads to; a null value counts as none. */
  function BaseChild(c: Heap, base: Option<Id>, key: string): Option<Id>
    requires Closed(c) && (base.Some? ==> base.value in c)
  {
    var r := BaseReads(c, base, key);
    if r.Found? && c[r.value].tag != "!!null" then Some(r.value) else None
  }

  /** The copy is a tree, and only its root was changed since. */
  ghost predicate Grounded(c: Heap, k: Id, f: Heap) {
    && Closed(c) && Closed(f) && Descends(c, k)
    && forall id <- c :: id in f && (id != k ==> f[id] == c[id])
  }

  ghost predicate OwnedOK(c: Heap, k: Id, f: Heap, e: Edits) {
    && [] in e.owned && e.owned[[]] == k && e.base.Keys == e.owned.Keys && e.base[[]] == Some(k)
    && (forall q <- e.owned :: q != [] ==> e.owned[q] !in c)
    && (forall q <- e.owned :: e.owned[q] in f)
    && (forall p <- e.owned, q <- e.owned :: e.owned[p] == e.owned[q] ==> p == q)
    && (forall q <- e.owned :: q != [] ==> q[..|q| - 1] in e.owned)
    && (forall q <- e.changed :: q != [] && q[..|q| - 1] in e.owned && q !in e.owned)
  }

  ghost predicate BaseOK(c: Heap, k: Id, e: Edits) {
    forall q <- e.base :: e.base[q].Some? ==>
      e.base[q].value in c && e.base[q].value <= k && Descends(c, e.base[q].value) && Closed(c)
        && Materialized(c, e.base[q].value, {}).Some?
  }

  ghost predicate LinkOK(c: Heap, e: Edits, q: Chain, key: string)
    requires Closed(c) && q in e.base && (e.base[q].Some? ==> e.base[q].value in c)
  {
    Under(q, key) in e.base ==> e.base[Under(q, key)] == BaseChild(c, e.base[q], key)
  }

  /** A key of an owned mapping leads to the mapping owned there, to whatever was set
      there, or to what it led to in the copy. */
  ghost predicate ReadOK(c: Heap, f: Heap, e: Edits, q: Chain, key: string)
    requires Closed(c) && Closed(f) && q in e.base && q in e.owned && e.owned[q] in f
             && (e.base[q].Some? ==> e.base[q].value in c)
  {
    var r := Reads(f, e.owned[q], key);
    if Under(q, key) in e.owned then r == Found(e.owned[Under(q, key)])
    else Under(q, key) !in e.changed ==> r == BaseReads(c, e.base[q], key)
  }

  ghost predicate Sited(c: Heap, f: Heap, e: Edits, q: Chain) {
    && Closed(c) && Closed(f) && q in e.base && q in e.owned && e.owned[q] in f
       && (e.base[q].Some? ==> e.base[q].value in c)
  }

  ghost predicate KeyOK(c: Heap, f: Heap, e: Edits, q: Chain, key: string) {
    Sited(c, f, e, q) && ReadOK(c, f, e, q, key) && LinkOK(c, e, q, key)
  }

  ghost predicate AllReadOK(c: Heap, f: Heap, e: Edits) {
    forall q <- e.owned, key: string :: KeyOK(c, f, e, q, key)
  }

  /** Before the first edit the root may still have merges. */
  ghost predicate PlainOK(f: Heap, e: Edits) {
    && (forall q <- e.owned :: e.owned.Keys != {[]} || e.changed != {} ==> Plain(f, e.owned[q]))
    && (forall q <- e.owned :: Closed(f) && e.owned[q] in f && Materialized(f, e.owned[q], {}).Some?)
    && (forall q <- e.owned :: q != [] ==> f[e.owned[q]].tag != "!!null")
  }

  ghost predicate Inv(c: Heap, k: Id, f: Heap, e: Edits) {
    Grounded(c, k, f) && OwnedOK(c, k, f, e) && BaseOK(c, k, e) && AllReadOK(c, f, e) && PlainOK(f, e)
  }

  function Start(k: Id): Edits {
    Edits(map[[] := k], map[[] := Some(k)], {})
  }

  lemma StartInv(c: Heap, k: Id)
    requires Closed(c) && Descends(c, k) && Materialized(c, k, {}).Some?
    ensures Inv(c, k, c, Start(k))
  {
    hide Descends, Materialized, Reads, Under, KeyOK;
    NoAlias(c, k);
    forall q, key: string | q in Start(k).owned
      ensures KeyOK(c, c, Start(k), q, key)
    {
      StartKey(c, k, key);
    }
  }

  lemma StartKey(c: Heap, k: Id, key: string)
    requires Closed(c) && k in c
    ensures KeyOK(c, c, Start(k), [], key)
  {
    hide Reads;
    UnderInjective([], key, [], key);
  }

  // Reading what was not edited

  /** This chain of keys from the mapping owned at `q` ends at an owned mapping, or at or
      behind a value that was set. */
  predicate Touched(e: Edits, q: Chain, path: Chain)
    decreases |path|
  {
    path == [] || Under(q, path[0]) in e.changed
      || (Under(q, path[0]) in e.owned && Touched(e, Under(q, path[0]), path[1..]))
  }

  lemma AgreesUnder(c: Heap, k: Id, f: Heap, v: Id)
    requires Grounded(c, k, f) && v < k
    ensures AgreeBelow(c, f, v)
  {
  }

  lemma OneRead(c: Heap, k: Id, f: Heap, e: Edits, q: Chain, key: string)
    requires Inv(c, k, f, e) && q in e.owned
    ensures q in e.base && e.owned[q] in f && Closed(f) && Closed(c)
            && (e.base[q].Some? ==> e.base[q].value in c && e.base[q].value <= k && Descends(c, e.base[q].value))
    ensures KeyOK(c, f, e, q, key)
  {
    hide Descends, Materialized, Reads, ReadOK, LinkOK;
  }

  /** A chain of keys that was not touched leads to the very node it led to in the copy,
      below which nothing changed; where nothing was in the copy, to nothing. */
  lemma {:induction false} UntouchedReads(c: Heap, k: Id, f: Heap, e: Edits, q: Chain, path: Chain)
    requires Inv(c, k, f, e) && NullsAreScalars(c) && q in e.owned && !Touched(e, q, path)
    ensures q in e.base && e.owned[q] in f && Closed(f) && Closed(c)
    ensures e.base[q].None? ==> Lookup(f, e.owned[q], path).Missing?
    ensures e.base[q].Some? ==> e.base[q].value in c
    ensures e.base[q].Some? && !Lookup(c, e.base[q].value, path).Broken? ==>
              Lookup(f, e.owned[q], path) == Lookup(c, e.base[q].value, path)
    ensures e.base[q].Some? && Lookup(c, e.base[q].value, path).Found? ==>
              Lookup(c, e.base[q].value, path).value < k && Descends(c, Lookup(c, e.base[q].value, path).value)
    decreases |path|
  {
    hide Inv, Descends, Reads, Lookup, Materialized;
    var key := path[0];
    OneRead(c, k, f, e, q, key);
    LookupStep(f, e.owned[q], path);
    if e.base[q].Some? {
      LookupStep(c, e.base[q].value, path);
      ReadsBelow(c, e.base[q].value, key);
    }
    if Under(q, key) in e.owned {
      UntouchedReads(c, k, f, e, Under(q, key), path[1..]);
      if e.base[q].Some? && Reads(c, e.base[q].value, key).Found? {
        NullIsNoMapping(c, Reads(c, e.base[q].value, key).value, path[1..]);
      }
    } else if e.base[q].Some? && Reads(c, e.base[q].value, key).Found? {
      var v := Reads(c, e.base[q].value, key).value;
      Ground(c, k, f, e);
      AgreesUnder(c, k, f, v);
      AgreeLookup(c, f, v, path[1..]);
    }
  }

  lemma Ground(c: Heap, k: Id, f: Heap, e: Edits)
    requires Inv(c, k, f, e)
    ensures Grounded(c, k, f)
  {
  }

  /** No mapping is tagged as null. */
  predicate NullsAreScalars(c: Heap) {
    forall id <- c :: c[id].tag == "!!null" ==> !c[id].kind.Mapping?
  }

  /** No key leads on from a null value. */
  lemma NullIsNoMapping(c: Heap, v: Id, path: Chain)
    requires Closed(c) && Descends(c, v) && path != [] && NullsAreScalars(c)
    ensures c[v].tag == "!!null" ==> Lookup(c, v, path).Broken?
  {
  }

  // One edit

  /** From `f` to `f'` the mapping `x` was spelled out, and the value of `key` became a
      mapping of its own, `y`. */
  ghost predicate Spelling(f: Heap, f': Heap, x: Id, key: string, y: Id) {
    && Closed(f) && Closed(f') && x in f && Materialized(f, x, {}).Some? && !f[x].kind.Alias?
    && (forall id <- f :: id in f' && (id != x ==> f'[id] == f[id]))
    && f'[x].value == f[x].value && f'[x].tag == f[x].tag
    && y !in f && y in f' && Plain(f', x) && Edited(f, f', x, key, y)
    && var spelled := f[x := SpelledOut(f, x)];
       Closed(spelled) && ChildNode(spelled, x, key) == Some(f'[y])
  }

  lemma RespelledReads(f: Heap, f': Heap, x: Id, key: string, y: Id, other: string)
    requires Spelling(f, f', x, key, y)
    ensures Reads(f', x, other) == if other == key then Found(y) else Reads(f, x, other)
  {
    hide Materialized, Reads, ValueOf, ChildNode, SpelledOut, Flat;
    PlainReads(f', x, other);
    FlatReads(f, x, other);
  }

  predicate LabelsStay(f: Heap, f': Heap) {
    forall id <- f :: id in f' && f'[id].value == f[id].value && f'[id].tag == f[id].tag
  }

  lemma LabelledValue(f: Heap, f': Heap, content: seq<Id>, key: string)
    requires LabelsStay(f, f') && AllIn(f, content)
    ensures AllIn(f', content) && ValueOf(f', content, key) == ValueOf(f, content, key)
    ensures NoMergeKeys(f', content) <==> NoMergeKeys(f, content)
  {
    SameValue(f, f', content, key);
  }

  /** A plain mapping that stays as it is reads as before, its keys being spelled alike. */
  lemma PlainStays(f: Heap, f': Heap, n: Id, key: string)
    requires Closed(f) && Closed(f') && LabelsStay(f, f') && Plain(f, n) && n in f' && f'[n].content == f[n].content
             && f'[n].kind == f[n].kind
    ensures Plain(f', n) && Reads(f', n, key) == Reads(f, n, key)
  {
    hide Materialized, Reads, ValueOf;
    LabelledValue(f, f', f[n].content, key);
    PlainReads(f, n, key);
    PlainReads(f', n, key);
  }

  lemma SpelledOutPlain(h: Heap, v: Id)
    requires Closed(h) && v in h && Materialized(h, v, {}).Some?
    ensures var node := SpelledOut(h, v);
            node.kind.Mapping? && AllIn(h, node.content) && NoMergeKeys(h, node.content) && |node.content| % 2 == 0
  {
    hide Materialized, Flat, Genuine;
    MaterializedGenuine(h, v, {});
    MaterializedMapping(h, v, {});
    FlatUnmerged(h, Materialized(h, v, {}).value);
  }

  /** The root spelled out, nothing else. */
  function Respelled(f: Heap, x: Id): Heap
    requires Closed(f) && x in f && Materialized(f, x, {}).Some?
  {
    f[x := SpelledOut(f, x)]
  }

  lemma RespelledLabels(f: Heap, x: Id)
    requires Closed(f) && x in f && Materialized(f, x, {}).Some? && !f[x].kind.Alias?
    ensures LabelsStay(f, Respelled(f, x)) && Respelled(f, x)[x].content == Flat(Materialized(f, x, {}).value)
  {
    hide Materialized, Flat;
  }

  /** What the new mapping says: what the value said, or nothing. */
  lemma ChildReads(f: Heap, f': Heap, x: Id, key: string, y: Id, other: string)
    requires Spelling(f, f', x, key, y)
    ensures Plain(f', y) && Closed(Respelled(f, x))
    ensures var r := Reads(f, x, key);
            if r.Found? && f[r.value].tag != "!!null" then
              Materialized(Respelled(f, x), r.value, {}).Some?
                && Reads(f', y, other) == Reads(Respelled(f, x), r.value, other)
            else Reads(f', y, other) == Missing
  {
    hide Materialized, Reads, ValueOf, Flat, Edited;
    var spelled := Respelled(f, x);
    var flat := Flat(Materialized(f, x, {}).value);
    RespelledLabels(f, x);
    FlatReads(f, x, key);
    LabelledValue(f, spelled, flat, key);
    Relabelled(f, f', x);
    var r := Reads(f, x, key);
    if r.Found? && f[r.value].tag != "!!null" {
      SpelledOutPlain(spelled, r.value);
      FlatReads(spelled, r.value, other);
      LabelledValue(spelled, f', f'[y].content, other);
      PlainReads(f', y, other);
    } else {
      EmptyReads(f', y, other);
    }
  }

  lemma Relabelled(f: Heap, f': Heap, x: Id)
    requires Closed(f) && x in f && Materialized(f, x, {}).Some? && !f[x].kind.Alias?
    requires (forall id <- f :: id in f' && (id != x ==> f'[id] == f[id])) && f'[x].value == f[x].value
             && f'[x].tag == f[x].tag
    ensures LabelsStay(f, f') && LabelsStay(Respelled(f, x), f')
  {
    hide Materialized, Flat;
  }

  lemma EmptyReads(f: Heap, y: Id, key: string)
    requires Closed(f) && y in f && f[y] == EMPTY_MAPPING
    ensures Plain(f, y) && Reads(f, y, key) == Missing
  {
    hide Materialized, Reads;
    PlainReads(f, y, key);
  }

  // Owning one more mapping

  function ChildBaseOf(c: Heap, e: Edits, q: Chain, key: string): Option<Id> {
    if Closed(c) && q in e.base && (e.base[q].Some? ==> e.base[q].value in c) then BaseChild(c, e.base[q], key)
      else None
  }

  function Owning(c: Heap, e: Edits, q: Chain, key: string, y: Id): Edits {
    Edits(e.owned[Under(q, key) := y], e.base[Under(q, key) := ChildBaseOf(c, e, q, key)], e.changed)
  }

  /** What the lemmas below are about. */
  ghost predicate Owns(c: Heap, k: Id, f: Heap, f': Heap, e: Edits, q: Chain, key: string, y: Id) {
    Inv(c, k, f, e) && q in e.owned && Spelling(f, f', e.owned[q], key, y) && Under(q, key) !in e.changed
  }

  lemma OwnsShape(c: Heap, k: Id, f: Heap, f': Heap, e: Edits, q: Chain, key: string, y: Id)
    requires Owns(c, k, f, f', e, q, key, y)
    ensures Grounded(c, k, f') && q in e.base && (e.base[q].Some? ==> e.base[q].value in c)
    ensures OwnedOK(c, k, f', Owning(c, e, q, key, y))
  {
    hide Descends, Materialized, Reads, AllReadOK, PlainOK, BaseOK, Edited, ChildNode, SpelledOut, BaseChild;
    OneRead(c, k, f, e, q, key);
    UnderInjective(q, key, q, key);
    assert Under(q, key)[..|Under(q, key)| - 1] == q;
  }

  /** The value that is spelled out is one of the copy, unless it is owned already. */
  lemma ChildBase(c: Heap, k: Id, f: Heap, f': Heap, e: Edits, q: Chain, key: string, y: Id)
    requires Owns(c, k, f, f', e, q, key, y) && Under(q, key) !in e.owned
    ensures q in e.base && (e.base[q].Some? ==> e.base[q].value in c) && Closed(c) && Closed(f) && e.owned[q] in f
    ensures var child, r := BaseChild(c, e.base[q], key), Reads(f, e.owned[q], key);
            if child.Some? then
              && r == Found(child.value) && child.value in c && child.value < k && Descends(c, child.value)
                 && Materialized(c, child.value, {}).Some?
              && f[r.value].tag != "!!null"
              && Closed(Respelled(f, e.owned[q]))
              && forall other ::
                   child.value in Respelled(f, e.owned[q])
                   && Reads(Respelled(f, e.owned[q]), child.value, other) == Reads(c, child.value, other)
            else r.Found? ==> f[r.value].tag == "!!null"
  {
    hide Descends, Materialized, Reads, AllReadOK, PlainOK, BaseOK, Edited, ChildNode, SpelledOut;
    var x := e.owned[q];
    OneRead(c, k, f, e, q, key);
    if e.base[q].Some? {
      ReadsBelow(c, e.base[q].value, key);
    }
    ChildReads(f, f', x, key, y, "");
    var child := BaseChild(c, e.base[q], key);
    if child.Some? {
      var v := child.value;
      assert v < k && v in c && f[v] == c[v];
      RespelledAgrees(c, k, f, x, v);
      AgreeReads(c, Respelled(f, x), v, {}, {});
      forall other: string
        ensures v in Respelled(f, x) && Reads(Respelled(f, x), v, other) == Reads(c, v, other)
      {
        AgreeValue(c, Respelled(f, x), v, other);
      }
    } else if Reads(f, x, key).Found? {
      var v := Reads(f, x, key).value;
      assert e.base[q].Some? && v in c && v < k;
    }
  }

  lemma RespelledAgrees(c: Heap, k: Id, f: Heap, x: Id, v: Id)
    requires Grounded(c, k, f) && x in f && Materialized(f, x, {}).Some? && (x == k || x !in c) && v < k
    ensures AgreeBelow(c, Respelled(f, x), v)
  {
    hide Descends, Materialized, SpelledOut;
  }

  lemma OwnerOutside(c: Heap, k: Id, f: Heap, e: Edits, q: Chain)
    requires Inv(c, k, f, e) && q in e.owned
    ensures e.owned[q] == k || e.owned[q] !in c
  {
    hide Descends, Materialized, Reads, AllReadOK, PlainOK, BaseOK;
  }

  lemma ParentRead(c: Heap, k: Id, f: Heap, f': Heap, e: Edits, q: Chain, key: string, y: Id, other: string)
    requires Owns(c, k, f, f', e, q, key, y)
    ensures KeyOK(c, f', Owning(c, e, q, key, y), q, other)
  {
    hide Descends, Materialized, Reads, AllReadOK, PlainOK, BaseOK, OwnedOK, Grounded, Edited, ChildNode, SpelledOut,
         BaseChild, Inv;
    OneRead(c, k, f, e, q, other);
    OneRead(c, k, f, e, q, key);
    Unwrap(c, k, f, f', e, q, key, y);
    RespelledReads(f, f', e.owned[q], key, y, other);
    UnderInjective(q, other, q, key);
    UnderInjective(q, key, q, key);
  }

  lemma Unwrap(c: Heap, k: Id, f: Heap, f': Heap, e: Edits, q: Chain, key: string, y: Id)
    requires Owns(c, k, f, f', e, q, key, y)
    ensures Inv(c, k, f, e) && q in e.owned && Spelling(f, f', e.owned[q], key, y) && Under(q, key) !in e.changed
  {
  }

  lemma OtherRead(c: Heap, k: Id, f: Heap, f': Heap, e: Edits, q: Chain, key: string, y: Id, p: Chain, other: string)
    requires Owns(c, k, f, f', e, q, key, y) && Closed(c) && q in e.base && (e.base[q].Some? ==> e.base[q].value in c)
    requires p in e.owned && p != q && p != Under(q, key)
    ensures p in e.base && (e.base[p].Some? ==> e.base[p].value in c) && e.owned[p] in f' && Closed(f')
            && Plain(f', e.owned[p])
    ensures KeyOK(c, f', Owning(c, e, q, key, y), p, other)
  {
    hide *;
    Unwrap(c, k, f, f', e, q, key, y);
    OneRead(c, k, f, e, p, other);
    Untangled(c, k, f, e, p, q);
    SpellingLabels(f, f', e.owned[q], key, y);
    PlainStays(f, f', e.owned[p], other);
    ElsewhereOK(c, f, f', e, q, key, y, p, other);
  }

  lemma ElsewhereOK(c: Heap, f: Heap, f': Heap, e: Edits, q: Chain, key: string, y: Id, p: Chain, other: string)
    requires Closed(c) && Closed(f) && Closed(f') && q in e.base && (e.base[q].Some? ==> e.base[q].value in c)
    requires p in e.owned && p in e.base && (e.base[p].Some? ==> e.base[p].value in c) && p != q && p != Under(q, key)
    requires e.owned[p] in f && e.owned[p] in f' && Reads(f', e.owned[p], other) == Reads(f, e.owned[p], other)
    requires KeyOK(c, f, e, p, other)
    ensures KeyOK(c, f', Owning(c, e, q, key, y), p, other)
  {
    hide Reads, Closed, BaseReads, BaseChild, Under;
    UnderInjective(p, other, q, key);
  }

  lemma Untangled(c: Heap, k: Id, f: Heap, e: Edits, p: Chain, q: Chain)
    requires Inv(c, k, f, e) && p in e.owned && q in e.owned && p != q
    ensures e.owned[p] != e.owned[q] && e.owned[p] in f && Plain(f, e.owned[p]) && f[e.owned[p]].kind.Mapping?
  {
    hide Descends, Materialized, Reads, AllReadOK, BaseOK, Grounded;
    assert e.owned.Keys != {[]};
  }

  lemma SpellingLabels(f: Heap, f': Heap, x: Id, key: string, y: Id)
    requires Spelling(f, f', x, key, y)
    ensures Closed(f) && Closed(f') && x in f && Materialized(f, x, {}).Some?
    ensures LabelsStay(f, f') && LabelsStay(f, Respelled(f, x)) && Closed(Respelled(f, x))
    ensures forall id <- f :: id != x ==> id in f' && f'[id] == f[id] && Respelled(f, x)[id] == f[id]
  {
    hide Materialized, Edited, ChildNode, SpelledOut;
    RespelledLabels(f, x);
  }

  /** A mapping that was owned already keeps its edits. */
  lemma OwnedChildRead(c: Heap, k: Id, f: Heap, f': Heap, e: Edits, q: Chain, key: string, y: Id, other: string)
    requires Owns(c, k, f, f', e, q, key, y) && Closed(c) && q in e.base && (e.base[q].Some? ==> e.base[q].value in c)
    requires Under(q, key) in e.owned
    ensures var e', p := Owning(c, e, q, key, y), Under(q, key);
            && p in e.base && e'.base[p] == e.base[p] && (e'.base[p].Some? ==> e'.base[p].value in c)
            && y in f' && Closed(f') && KeyOK(c, f', e', p, other) && Plain(f', y) && f'[y].tag != "!!null"
  {
    hide Descends, Materialized, Reads, AllReadOK, BaseOK, OwnedOK, Grounded, Edited, ChildNode, SpelledOut,
         BaseChild, Inv, Plain, PlainOK;
    var p := Under(q, key);
    OneRead(c, k, f, e, q, key);
    OneRead(c, k, f, e, p, other);
    Unwrap(c, k, f, f', e, q, key, y);
    UnderInjective(q, key, q, key);
    UnderInjective(p, other, q, key);
    Untangled(c, k, f, e, p, q);
    SpellingLabels(f, f', e.owned[q], key, y);
    PlainStays(f, Respelled(f, e.owned[q]), e.owned[p], other);
    OwnedTag(c, k, f, e, p);
    ChildReads(f, f', e.owned[q], key, y, other);
    ChildTag(f, f', e.owned[q], key, y);
  }

  lemma OwnedTag(c: Heap, k: Id, f: Heap, e: Edits, p: Chain)
    requires Inv(c, k, f, e) && p in e.owned && p != []
    ensures e.owned[p] in f && f[e.owned[p]].tag != "!!null"
  {
    hide Descends, Materialized, Reads, AllReadOK, BaseOK, Grounded, Plain;
  }

  /** The new mapping is never tagged as null. */
  lemma ChildTag(f: Heap, f': Heap, x: Id, key: string, y: Id)
    requires Spelling(f, f', x, key, y)
    requires var r := Reads(f, x, key); r.Found? && f[r.value].tag != "!!null" ==> !f[r.value].kind.Alias?
    ensures f'[y].tag != "!!null"
  {
    hide Materialized, Reads, ValueOf, Flat, Edited;
    var spelled := Respelled(f, x);
    RespelledLabels(f, x);
    RespelledKinds(f, x);
    FlatReads(f, x, key);
    LabelledValue(f, spelled, Flat(Materialized(f, x, {}).value), key);
  }

  lemma RespelledKinds(f: Heap, x: Id)
    requires Closed(f) && x in f && Materialized(f, x, {}).Some? && !f[x].kind.Alias?
    ensures forall id <- f :: id in Respelled(f, x) && Respelled(f, x)[id].kind == f[id].kind
  {
    hide Materialized, Flat;
  }

  /** A mapping that was not owned says what it said in the copy. */
  lemma NewChildRead(c: Heap, k: Id, f: Heap, f': Heap, e: Edits, q: Chain, key: string, y: Id, other: string)
    requires Owns(c, k, f, f', e, q, key, y) && Closed(c) && q in e.base && (e.base[q].Some? ==> e.base[q].value in c)
    requires Under(q, key) !in e.owned
    ensures var e', p := Owning(c, e, q, key, y), Under(q, key);
            && (e'.base[p].Some? ==> e'.base[p].value in c)
            && y in f' && Closed(f') && KeyOK(c, f', e', p, other) && Plain(f', y) && f'[y].tag != "!!null"
  {
    hide Descends, Materialized, Reads, AllReadOK, BaseOK, OwnedOK, Grounded, Edited, ChildNode, SpelledOut,
         BaseChild, Inv, Plain, PlainOK;
    var p := Under(q, key);
    ChildBase(c, k, f, f', e, q, key, y);
    Unwrap(c, k, f, f', e, q, key, y);
    NothingUnder(c, k, f, e, p, other);
    UnderInjective(q, key, q, key);
    UnderInjective(p, other, q, key);
    ChildReads(f, f', e.owned[q], key, y, other);
    if BaseChild(c, e.base[q], key).Some? {
      NoAlias(c, BaseChild(c, e.base[q], key).value);
      BelowRoot(c, k, f, e, BaseChild(c, e.base[q], key).value);
    }
    ChildTag(f, f', e.owned[q], key, y);
  }

  lemma BelowRoot(c: Heap, k: Id, f: Heap, e: Edits, v: Id)
    requires Inv(c, k, f, e) && v in c && v < k
    ensures v in f && f[v] == c[v]
  {
    hide Descends, Materialized, Reads, AllReadOK, BaseOK, PlainOK, OwnedOK;
  }

  lemma NothingUnder(c: Heap, k: Id, f: Heap, e: Edits, p: Chain, other: string)
    requires Inv(c, k, f, e) && p !in e.owned
    ensures Under(p, other) !in e.owned && Under(p, other) !in e.changed && Under(p, other) !in e.base
  {
    hide Descends, Materialized, Reads, AllReadOK, BaseOK, PlainOK, Grounded;
    assert Under(p, other)[..|Under(p, other)| - 1] == p;
    UnderInjective(p, other, p, other);
  }

  lemma BaseKept(c: Heap, k: Id, f: Heap, f': Heap, e: Edits, q: Chain, key: string, y: Id)
    requires Owns(c, k, f, f', e, q, key, y) && Closed(c) && q in e.base && (e.base[q].Some? ==> e.base[q].value in c)
    ensures BaseOK(c, k, Owning(c, e, q, key, y))
  {
    hide Descends, Materialized, Reads, AllReadOK, PlainOK, OwnedOK, Grounded, Spelling, BaseChild;
    if Under(q, key) in e.owned {
      OneRead(c, k, f, e, q, key);
      OneRead(c, k, f, e, Under(q, key), key);
    } else {
      ChildBase(c, k, f, f', e, q, key, y);
    }
  }

  lemma Rereads(f: Heap, n: Id)
    requires Closed(f) && Plain(f, n)
    ensures n in f && Materialized(f, n, {}).Some?
  {
    hide Materialized;
    PlainReads(f, n, "");
  }

  /** Owning one more mapping keeps what every key of every owned mapping leads to. */
  lemma OwnKeeps(c: Heap, k: Id, f: Heap, f': Heap, e: Edits, q: Chain, key: string, y: Id)
    requires Owns(c, k, f, f', e, q, key, y)
    ensures Closed(c) && q in e.base && (e.base[q].Some? ==> e.base[q].value in c)
    ensures Inv(c, k, f', Owning(c, e, q, key, y))
  {
    hide Descends, Materialized, Reads, Edited, ChildNode, SpelledOut, BaseChild, Plain, ReadOK, LinkOK, OwnedOK,
         BaseOK, Grounded;
    OwnsShape(c, k, f, f', e, q, key, y);
    OneRead(c, k, f, e, q, key);
    BaseKept(c, k, f, f', e, q, key, y);
    UnderInjective(q, key, q, key);
    var e' := Owning(c, e, q, key, y);
    forall p | p in e'.owned
      ensures p in e'.base && (e'.base[p].Some? ==> e'.base[p].value in c) && e'.owned[p] in f' && Closed(f')
              && Plain(f', e'.owned[p])
      ensures p != [] ==> f'[e'.owned[p]].tag != "!!null"
      ensures forall other: string :: KeyOK(c, f', e', p, other)
    {
      EachRead(c, k, f, f', e, q, key, y, p);
    }
    forall p | p in e'.owned
      ensures Materialized(f', e'.owned[p], {}).Some?
    {
      Rereads(f', e'.owned[p]);
    }
  }

  lemma EachRead(c: Heap, k: Id, f: Heap, f': Heap, e: Edits, q: Chain, key: string, y: Id, p: Chain)
    requires Owns(c, k, f, f', e, q, key, y) && Closed(c) && q in e.base && (e.base[q].Some? ==> e.base[q].value in c)
    requires p in Owning(c, e, q, key, y).owned
    ensures var e' := Owning(c, e, q, key, y);
            && p in e'.base && (e'.base[p].Some? ==> e'.base[p].value in c) && e'.owned[p] in f' && Closed(f')
            && Plain(f', e'.owned[p]) && (p != [] ==> f'[e'.owned[p]].tag != "!!null")
            && forall other: string :: KeyOK(c, f', e', p, other)
  {
    hide Descends, Materialized, Reads, Edited, ChildNode, SpelledOut, BaseChild, Plain, ReadOK, LinkOK, OwnedOK,
         BaseOK, Grounded, AllReadOK, PlainOK, Inv;
    Unwrap(c, k, f, f', e, q, key, y);
    UnderInjective(q, key, q, key);
    SpellingLabels(f, f', e.owned[q], key, y);
    var e' := Owning(c, e, q, key, y);
    if p == Under(q, key) {
      forall other: string ensures p in e'.base && (e'.base[p].Some? ==> e'.base[p].value in c) && Closed(f')
        && e'.owned[p] in f' && KeyOK(c, f', e', p, other) {
        if p in e.owned {
          OwnedChildRead(c, k, f, f', e, q, key, y, other);
        } else {
          NewChildRead(c, k, f, f', e, q, key, y, other);
        }
      }
      if p in e.owned {
        OwnedChildRead(c, k, f, f', e, q, key, y, "");
      } else {
        NewChildRead(c, k, f, f', e, q, key, y, "");
      }
    } else if p == q {
      forall other: string ensures KeyOK(c, f', e', p, other) {
        ParentRead(c, k, f, f', e, q, key, y, other);
      }
      if p != [] {
        OwnedTag(c, k, f, e, p);
      }
    } else {
      OtherRead(c, k, f, f', e, q, key, y, p, "");
      forall other: string ensures KeyOK(c, f', e', p, other) {
        OtherRead(c, k, f, f', e, q, key, y, p, other);
      }
      if p != [] {
        OwnedTag(c, k, f, e, p);
      }
    }
  }

  // Changing one value

  /** From `f` to `f'` the plain mapping `x` changed what `key` leads to, nothing else. */
  ghost predicate Changing(f: Heap, f': Heap, x: Id, key: string) {
    && Closed(f) && Closed(f') && Plain(f, x) && Plain(f', x)
    && (forall id <- f :: id in f' && (id != x ==> f'[id] == f[id]))
    && f'[x].(content := []) == f[x].(content := [])
    && forall other :: other != key ==> ValueOf(f', f'[x].content, other) == ValueOf(f, f[x].content, other)
  }

  function Changed(e: Edits, q: Chain, key: string): Edits {
    Edits(e.owned, e.base, e.changed + {Under(q, key)})
  }

  ghost predicate AllPlain(f: Heap, e: Edits) {
    forall q <- e.owned :: Plain(f, e.owned[q])
  }

  lemma ChangedRead(c: Heap, k: Id, f: Heap, f': Heap, e: Edits, q: Chain, key: string, p: Chain, other: string)
    requires Inv(c, k, f, e) && AllPlain(f, e) && q in e.owned && p in e.owned && Changing(f, f', e.owned[q], key)
    ensures Closed(c) && p in e.base && (e.base[p].Some? ==> e.base[p].value in c) && Closed(f') && e.owned[p] in f'
    ensures Plain(f', e.owned[p]) && (p != [] ==> f'[e.owned[p]].tag != "!!null")
    ensures Under(q, key) !in e.owned ==> KeyOK(c, f', Changed(e, q, key), p, other)
  {
    hide Descends, Materialized, Reads, ValueOf, Plain, Inv, PlainOK, AllReadOK, OwnedOK, BaseOK, Grounded;
    OneRead(c, k, f, e, p, other);
    if p != [] {
      OwnedTag(c, k, f, e, p);
    }
    UnderInjective(p, other, q, key);
    if p == q {
      PlainReads(f, e.owned[q], other);
      PlainReads(f', e.owned[q], other);
    } else {
      Untangled(c, k, f, e, p, q);
      PlainStays(f, f', e.owned[p], other);
    }
  }

  /** Heaps that grow, and change none of the copy's nodes but the root. */
  lemma GroundKept(c: Heap, k: Id, f: Heap, f': Heap, x: Id)
    requires Grounded(c, k, f) && Closed(f') && (x == k || x !in c) && forall id <- f ::
               id in f' && (id != x ==> f'[id] == f[id])
    ensures Grounded(c, k, f')
  {
    hide Descends;
  }

  lemma OwnedKept(c: Heap, k: Id, f: Heap, f': Heap, e: Edits)
    requires OwnedOK(c, k, f, e) && forall id <- f :: id in f'
    ensures OwnedOK(c, k, f', e)
  {
  }

  lemma OwnedChanged(c: Heap, k: Id, f: Heap, e: Edits, q: Chain, key: string)
    requires OwnedOK(c, k, f, e) && q in e.owned && Under(q, key) !in e.owned
    ensures OwnedOK(c, k, f, Changed(e, q, key))
  {
    UnderInjective(q, key, q, key);
    assert Under(q, key)[..|Under(q, key)| - 1] == q;
  }

  lemma ChangeShape(c: Heap, k: Id, f: Heap, f': Heap, e: Edits, q: Chain, key: string)
    requires Inv(c, k, f, e) && q in e.owned && Changing(f, f', e.owned[q], key) && Under(q, key) !in e.owned
    ensures Grounded(c, k, f') && OwnedOK(c, k, f', Changed(e, q, key)) && BaseOK(c, k, Changed(e, q, key))
  {
    hide Grounded, OwnedOK, AllReadOK, PlainOK, Descends, Materialized, ValueOf, Plain;
    OwnerOutside(c, k, f, e, q);
    GroundKept(c, k, f, f', e.owned[q]);
    OwnedKept(c, k, f, f', e);
    OwnedChanged(c, k, f', e, q, key);
  }

  lemma ChangeKeeps(c: Heap, k: Id, f: Heap, f': Heap, e: Edits, q: Chain, key: string)
    requires Inv(c, k, f, e) && AllPlain(f, e) && q in e.owned && Changing(f, f', e.owned[q], key)
             && Under(q, key) !in e.owned
    ensures Inv(c, k, f', Changed(e, q, key)) && AllPlain(f', Changed(e, q, key))
  {
    hide Descends, Materialized, Reads, Plain, ReadOK, LinkOK, OwnedOK, BaseOK, Grounded, Changing;
    ChangeShape(c, k, f, f', e, q, key);
    var e' := Changed(e, q, key);
    forall p | p in e'.owned
      ensures Closed(c) && p in e.base && (e.base[p].Some? ==> e.base[p].value in c) && Closed(f')
              && e.owned[p] in f' && Plain(f', e.owned[p])
      ensures (p != [] ==> f'[e.owned[p]].tag != "!!null") && Materialized(f', e.owned[p], {}).Some?
      ensures forall other: string :: KeyOK(c, f', e', p, other)
    {
      ChangedRead(c, k, f, f', e, q, key, p, "");
      Rereads(f', e.owned[p]);
      forall other: string ensures KeyOK(c, f', e', p, other) {
        ChangedRead(c, k, f, f', e, q, key, p, other);
      }
    }
  }

  /** New nodes on the side change nothing. */
  lemma GrowKeeps(c: Heap, k: Id, f: Heap, f': Heap, e: Edits)
    requires Inv(c, k, f, e) && AllPlain(f, e) && Grown(f, f') && Closed(f')
    ensures Inv(c, k, f', e) && AllPlain(f', e)
  {
    hide Descends, Materialized, Plain, KeyOK, OwnedOK, Grounded, BaseOK;
    GroundKept(c, k, f, f', k);
    OwnedKept(c, k, f, f', e);
    forall p | p in e.owned
      ensures e.owned[p] in f' && Plain(f', e.owned[p]) && Materialized(f', e.owned[p], {}).Some?
      ensures p != [] ==> f'[e.owned[p]].tag != "!!null"
      ensures forall other: string :: KeyOK(c, f', e, p, other)
    {
      GrownPlain(c, k, f, f', e, p);
      forall other: string ensures KeyOK(c, f', e, p, other) {
        GrownRead(c, k, f, f', e, p, other);
      }
    }
  }

  lemma GrownPlain(c: Heap, k: Id, f: Heap, f': Heap, e: Edits, p: Chain)
    requires Inv(c, k, f, e) && AllPlain(f, e) && Grown(f, f') && Closed(f') && p in e.owned
    ensures e.owned[p] in f' && Plain(f', e.owned[p]) && Materialized(f', e.owned[p], {}).Some?
    ensures p != [] ==> f'[e.owned[p]].tag != "!!null"
  {
    hide Materialized, Plain, Inv;
    OneRead(c, k, f, e, p, "");
    if p != [] {
      OwnedTag(c, k, f, e, p);
    }
    PlainStays(f, f', e.owned[p], "");
    Rereads(f', e.owned[p]);
  }

  lemma GrownRead(c: Heap, k: Id, f: Heap, f': Heap, e: Edits, p: Chain, other: string)
    requires Inv(c, k, f, e) && AllPlain(f, e) && Grown(f, f') && Closed(f') && p in e.owned
    ensures Closed(c) && p in e.base && (e.base[p].Some? ==> e.base[p].value in c) && e.owned[p] in f'
    ensures KeyOK(c, f', e, p, other)
  {
    hide Descends, Materialized, Reads, Plain, Inv;
    OneRead(c, k, f, e, p, other);
    PlainStays(f, f', e.owned[p], other);
  }

  lemma AllPlainAfter(c: Heap, k: Id, f: Heap, e: Edits)
    requires Inv(c, k, f, e) && e.owned.Keys != {[]}
    ensures AllPlain(f, e)
  {
    hide Descends, Materialized, Reads, Plain, AllReadOK, OwnedOK, BaseOK, Grounded;
  }

  // What setMappingValue and removeMappingValue do

  /** The heap after a value was set: in place, or with a new pair at the end. */
  ghost predicate SetResult(f: Heap, f': Heap, x: Id, key: string, value: Id)
    requires x in f && AllIn(f, f[x].content)
  {
    var content := f[x].content;
    var k := PairIndex(f, content, key, 0);
    if k < |content| / 2 then f' == f[x := f[x].(content := content[2 * k + 1 := value])]
    else exists name: Id :: name !in f &&
           f' == f[name := Node(Scalar, "!!str", key, "", 0, [])][x := f[x].(content := content + [name, value])]
  }

  lemma InPlacePlain(f: Heap, x: Id, k: nat, value: Id)
    requires Closed(f) && Plain(f, x) && value in f && k < |f[x].content| / 2
    ensures var f' := f[x := f[x].(content := f[x].content[2 * k + 1 := value])]; Closed(f') && Plain(f', x)
  {
    var content := f[x].content;
    assert forall i :: 0 <= i < |content| / 2 ==> 2 * i != 2 * k + 1;
  }

  lemma AppendedPlain(f: Heap, x: Id, key: string, name: Id, value: Id)
    requires Closed(f) && Plain(f, x) && value in f && name !in f
    ensures var f' := f[name := Node(Scalar, "!!str", key, "", 0,
                                     [])][x := f[x].(content := f[x].content + [name, value])];
            Closed(f') && Plain(f', x) && f'[name].value == key
  {
    var content := f[x].content;
    var more := content + [name, value];
    var f' := f[name := Node(Scalar, "!!str", key, "", 0, [])][x := f[x].(content := more)];
    forall i | 0 <= i < |more| / 2
      ensures f'[more[2 * i]].tag != MERGE
    {
      if i < |content| / 2 {
        assert more[2 * i] == content[2 * i] && f[content[2 * i]].tag != MERGE;
      }
    }
  }

  lemma SetChanges(f: Heap, f': Heap, x: Id, key: string, value: Id)
    requires Closed(f) && Plain(f, x) && value in f && SetResult(f, f', x, key, value)
    ensures Changing(f, f', x, key) && ValueOf(f', f'[x].content, key) == Some(value)
  {
    hide ValueOf, Plain;
    PlainShape(f, x);
    var content := f[x].content;
    var k := PairIndex(f, content, key, 0);
    var name := value;
    if k < |content| / 2 {
      InPlacePlain(f, x, k, value);
    } else {
      name :| name !in f && f' == f[name := Node(Scalar, "!!str", key, "", 0,
                                                 [])][x := f[x].(content := content + [name, value])];
      AppendedPlain(f, x, key, name, value);
    }
    PlainShape(f', x);
    hide PairIndex;
    forall other: string
      ensures ValueOf(f', f'[x].content, key) == Some(value)
      ensures other != key ==> ValueOf(f', f'[x].content, other) == ValueOf(f, content, other)
    {
      SetKeepsOthers(f, f', content, f'[x].content, key, value, name, other);
    }
  }

  lemma PlainShape(f: Heap, x: Id)
    requires Plain(f, x)
    ensures x in f && f[x].kind.Mapping? && AllIn(f, f[x].content) && |f[x].content| % 2 == 0
  {
  }

  /** Without the pair at `k`. */
  function Without(content: seq<Id>, k: nat): seq<Id>
    requires k < |content| / 2
  {
    content[..2 * k] + content[2 * k + 2..]
  }

  lemma WithoutAt(content: seq<Id>, k: nat, i: nat)
    requires k < |content| / 2 && |content| % 2 == 0 && i < |content| / 2 - 1
    ensures |Without(content, k)| == |content| - 2
    ensures Without(content, k)[2 * i] == content[2 * (if i < k then i else i + 1)]
    ensures Without(content, k)[2 * i + 1] == content[2 * (if i < k then i else i + 1) + 1]
  {
  }

  lemma WithoutIn(h: Heap, content: seq<Id>, k: nat)
    requires k < |content| / 2 && AllIn(h, content)
    ensures AllIn(h, Without(content, k)) && |Without(content, k)| == |content| - 2
  {
  }

  /** Without the first pair of a name every other name has what it had. */
  lemma RemovedKeepsOthers(h: Heap, h': Heap, content: seq<Id>, k: nat, other: string)
    requires AllIn(h, content) && |content| % 2 == 0 && k < |content| / 2 && LabelsStay(h, h')
             && h[content[2 * k]].value != other
    ensures AllIn(h', Without(content, k)) && ValueOf(h', Without(content, k), other) == ValueOf(h, content, other)
  {
    hide Without, PairIndex;
    var rest := Without(content, k);
    WithoutIn(h, content, k);
    var j := PairIndex(h, content, other, 0);
    var at := if j < k then j else j - 1;
    forall i | 0 <= i < at
      ensures h'[rest[2 * i]].value != other
    {
      WithoutAt(content, k, i);
    }
    if at < |rest| / 2 {
      WithoutAt(content, k, at);
    }
    FoundAt(h', rest, other, at);
  }

  lemma RemoveChanges(f: Heap, f': Heap, x: Id, key: string)
    requires Closed(f) && Plain(f, x)
    requires var content := f[x].content;
             var k := PairIndex(f, content, key, 0);
             f' == if k < |content| / 2 then f[x := f[x].(content := Without(content, k))] else f
    ensures Changing(f, f', x, key)
  {
    hide Closed, Plain, ValueOf, PairIndex, Without;
    PlainShape(f, x);
    var k := PairIndex(f, f[x].content, key, 0);
    if k < |f[x].content| / 2 {
      RemovedPlain(f, x, k);
      RemovedOthers(f, x, key, k);
    }
  }

  lemma RemovedOthers(f: Heap, x: Id, key: string, k: nat)
    requires Plain(f, x) && k == PairIndex(f, f[x].content, key, 0) < |f[x].content| / 2
    ensures var f' := f[x := f[x].(content := Without(f[x].content, k))];
            AllIn(f', f'[x].content) && forall other :: other != key ==>
              ValueOf(f', f'[x].content, other) == ValueOf(f, f[x].content, other)
  {
    hide Plain, ValueOf, Without;
    PlainShape(f, x);
    var f' := f[x := f[x].(content := Without(f[x].content, k))];
    WithoutIn(f, f[x].content, k);
    forall other: string | other != key
      ensures AllIn(f', f'[x].content) && ValueOf(f', f'[x].content, other) == ValueOf(f, f[x].content, other)
    {
      RemovedKeepsOthers(f, f', f[x].content, k, other);
    }
  }

  lemma RemovedPlain(f: Heap, x: Id, k: nat)
    requires Closed(f) && Plain(f, x) && k < |f[x].content| / 2
    ensures var f' := f[x := f[x].(content := Without(f[x].content, k))];
              Closed(f') && Plain(f', x)
  {
    hide Without;
    var rest := Without(f[x].content, k);
    WithoutIn(f, f[x].content, k);
    forall i | 0 <= i < |rest| / 2
      ensures f[rest[2 * i]].tag != MERGE
    {
      WithoutAt(f[x].content, k, i);
    }
  }

  /** Spelling out a mapping, allocating its child and setting it, together. */
  lemma SpellingHolds(f: Heap, f': Heap, x: Id, key: string, y: Id, child: Node)
    requires Closed(f) && x in f && Materialized(f, x, {}).Some? && !f[x].kind.Alias?
    requires Closed(Respelled(f, x)) && ChildNode(Respelled(f, x), x, key) == Some(child)
             && AllIn(Respelled(f, x), child.content) && !child.kind.Alias?
    requires y !in f && Edited(f, f', x, key, y)
    requires var mid := Respelled(f, x)[y := child];
             x in mid && AllIn(mid, mid[x].content) && SetResult(mid, f', x, key, y)
    requires f'[y] == child
    ensures Spelling(f, f', x, key, y)
  {
    hide Materialized, Edited, ChildNode, ValueOf, Flat, PairIndex;
    var mid := Respelled(f, x)[y := child];
    SpelledOutPlain(f, x);
    RespelledLabels(f, x);
    assert Closed(mid) && Plain(mid, x);
    SetChanges(mid, f', x, key, y);
  }

  lemma AllocatedClosed(f: Heap, y: Id, node: Node)
    requires Closed(f) && y !in f && AllIn(f, node.content) && !node.kind.Alias?
    ensures Closed(f[y := node])
  {
  }

  lemma SetClosed(f: Heap, f': Heap, x: Id, key: string, value: Id)
    requires Closed(f) && x in f && AllIn(f, f[x].content) && value in f && SetResult(f, f', x, key, value)
    ensures Closed(f')
  {
    hide PairIndex;
  }

  lemma Adopted(f: Heap, mid: Heap, f': Heap, x: Id, key: string, y: Id, child: Node)
    requires Closed(f) && x in f && Materialized(f, x, {}).Some? && !f[x].kind.Alias?
    requires Closed(Respelled(f, x)) && ChildNode(Respelled(f, x), x, key) == Some(child)
             && AllIn(Respelled(f, x), child.content) && !child.kind.Alias?
    requires y !in f && mid == Respelled(f, x)[y := child] && x in mid && AllIn(mid, mid[x].content)
    requires SetResult(mid, f', x, key, y)
    ensures Spelling(f, f', x, key, y)
  {
    hide Materialized, ChildNode, SpelledOut, Flat, Edited, Spelling;
    AdoptedEdited(f, mid, f', x, key, y, child);
    SpellingHolds(f, f', x, key, y, child);
  }

  lemma AdoptedEdited(f: Heap, mid: Heap, f': Heap, x: Id, key: string, y: Id, child: Node)
    requires Closed(f) && x in f && Materialized(f, x, {}).Some? && !f[x].kind.Alias?
    requires Closed(Respelled(f, x)) && AllIn(Respelled(f, x), child.content) && !child.kind.Alias?
    requires y !in f && mid == Respelled(f, x)[y := child] && x in mid && AllIn(mid, mid[x].content)
    requires SetResult(mid, f', x, key, y)
    ensures Edited(f, f', x, key, y) && y in f' && f'[y] == child
  {
    hide Materialized, Flat, ValueOf, PairIndex;
    SpelledOutPlain(f, x);
    RespelledLabels(f, x);
    AllocatedClosed(Respelled(f, x), y, child);
    assert Plain(mid, x);
    SetChanges(mid, f', x, key, y);
    var flat := Flat(Materialized(f, x, {}).value);
    FlatReads(f, x, key);
    forall other: string
      ensures ValueOf(mid, flat, other) == ValueOf(f, flat, other)
    {
      LabelledValue(f, mid, flat, other);
    }
  }
}
