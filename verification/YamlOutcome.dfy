/** When an edit of a copied document is refused, and what the edited mappings list
    (internal/gateway/config_store.go:164-204). */
module YamlOutcome {
  import opened YamlMerge
  import opened YamlCopy
  import opened YamlEdit
  import opened YamlEffective
  import opened YamlFlow
  import opened YamlEdits
  import opened YamlAliasKeys
  import YamlMergeKeys

  // What the edits find in a document

  /** What a chain of keys leads to; a null value counts as none. */
  function BaseAt(c: Heap, base: Option<Id>, path: Chain): (r: Option<Id>)
    requires Closed(c) && (base.Some? ==> base.value in c)
    ensures r.Some? ==> r.value in c
    decreases |path|
  {
    if path == [] then base else BaseAt(c, BaseChild(c, base, path[0]), path[1..])
  }

  /** Nothing, or a mapping whose effective entries can be read. */
  predicate Legible(c: Heap, base: Option<Id>)
    requires Closed(c) && (base.Some? ==> base.value in c)
  {
    base.Some? ==> Materialized(c, base.value, {}).Some?
  }

  /** All mappings along a chain of keys are legible, as far as there are any. */
  predicate Editable(c: Heap, base: Option<Id>, path: Chain)
    requires Closed(c) && (base.Some? ==> base.value in c)
    decreases |path|
  {
    Legible(c, base) && (path == [] || Editable(c, BaseChild(c, base, path[0]), path[1..]))
  }

  lemma BaseChildIn(c: Heap, base: Option<Id>, key: string)
    requires Closed(c) && (base.Some? ==> base.value in c)
    ensures BaseChild(c, base, key).Some? ==> BaseChild(c, base, key).value in c
  {
    hide Reads;
  }

  lemma OneKey(c: Heap, base: Option<Id>, key: string)
    requires Closed(c) && (base.Some? ==> base.value in c)
    ensures var child := BaseChild(c, base, key);
            && BaseAt(c, base, [key]) == child
            && (Editable(c, base, [key]) <==> Legible(c, base) && Legible(c, child))
  {
    hide BaseChild, Legible;
    BaseChildIn(c, base, key);
    assert [key][1..] == [];
  }

  lemma MoreKeys(c: Heap, base: Option<Id>, key: string, path: Chain)
    requires Closed(c) && (base.Some? ==> base.value in c)
    ensures var child := BaseChild(c, base, key);
            && (child.Some? ==> child.value in c)
            && BaseAt(c, base, [key] + path) == BaseAt(c, child, path)
            && (Editable(c, base, [key] + path) <==> Legible(c, base) && Editable(c, child, path))
  {
    hide BaseChild, Legible;
    BaseChildIn(c, base, key);
    assert ([key] + path)[1..] == path;
  }

  /** The effective entries of a legible mapping. */
  function EntriesOf(c: Heap, base: Option<Id>): seq<Entry>
    requires Closed(c) && (base.Some? ==> base.value in c)
  {
    if base.Some? && Materialized(c, base.value, {}).Some? then Materialized(c, base.value, {}).value else []
  }

  // The mapping that a value is replaced by

  /** The pairs of this content have the names of these entries. */
  predicate Lists(h: Heap, content: seq<Id>, entries: seq<Entry>) {
    && AllIn(h, content) && |content| == 2 * |entries|
    && forall i :: 0 <= i < |entries| ==> h[content[2 * i]].value == entries[i].name
  }

  lemma FlatLists(h: Heap, entries: seq<Entry>)
    requires Genuine(h, entries)
    ensures Lists(h, Flat(entries), entries)
  {
    FlatUnmerged(h, entries);
  }

  lemma ListsStays(f: Heap, f': Heap, content: seq<Id>, entries: seq<Entry>)
    requires LabelsStay(f, f') && Lists(f, content, entries)
    ensures Lists(f', content, entries)
  {
  }

  /** A value that was not edited is refused exactly if it is not legible in the copy;
      otherwise the mapping it becomes lists its effective entries. */
  lemma ChildOutcome(c: Heap, k: Id, f: Heap, e: Edits, q: Chain, key: string)
    requires Inv(c, k, f, e) && q in e.owned && Under(q, key) !in e.owned && Under(q, key) !in e.changed
    requires Closed(f) && e.owned[q] in f && Materialized(f, e.owned[q], {}).Some? && !f[e.owned[q]].kind.Alias?
    requires Closed(Respelled(f, e.owned[q]))
    ensures q in e.base && Closed(c) && (e.base[q].Some? ==> e.base[q].value in c)
    ensures var child, node := BaseChild(c, e.base[q], key), ChildNode(Respelled(f, e.owned[q]), e.owned[q], key);
            && (child.Some? ==> child.value in c)
            && (node.None? <==> !Legible(c, child))
            && (node.Some? ==> Lists(Respelled(f, e.owned[q]), node.value.content, EntriesOf(c, child)))
  {
    hide Inv, Descends, Materialized, Reads, ValueOf, Flat, Genuine;
    var x := e.owned[q];
    var spelled := Respelled(f, x);
    OneRead(c, k, f, e, q, key);
    BaseChildIn(c, e.base[q], key);
    FlatReads(f, x, key);
    RespelledLabels(f, x);
    LabelledValue(f, spelled, spelled[x].content, key);
    if e.base[q].Some? && Reads(c, e.base[q].value, key).Found? {
      var v := Reads(c, e.base[q].value, key).value;
      ReadsBelow(c, e.base[q].value, key);
      BelowRoot(c, k, f, e, v);
      Ground(c, k, f, e);
      OwnerOutside(c, k, f, e, q);
      RespelledAgrees(c, k, f, x, v);
      AgreeReads(c, spelled, v, {}, {});
      if Materialized(c, v, {}).Some? {
        MaterializedGenuine(spelled, v, {});
        FlatLists(spelled, Materialized(spelled, v, {}).value);
      }
    }
  }

  // Names that occur once

  predicate OnceIn(h: Heap, content: seq<Id>, key: string)
    requires AllIn(h, content)
  {
    forall i, j :: 0 <= i < j < |content| / 2 ==> !(h[content[2 * i]].value == key && h[content[2 * j]].value == key)
  }

  predicate OnceNamed(entries: seq<Entry>, key: string) {
    forall i, j :: 0 <= i < j < |entries| ==> !(entries[i].name == key && entries[j].name == key)
  }

  lemma ListsOnce(h: Heap, content: seq<Id>, entries: seq<Entry>, key: string)
    requires Lists(h, content, entries)
    ensures OnceIn(h, content, key) <==> OnceNamed(entries, key)
  {
    if !OnceNamed(entries, key) {
      var i, j :| 0 <= i < j < |entries| && entries[i].name == key && entries[j].name == key;
      assert h[content[2 * i]].value == key && h[content[2 * j]].value == key;
    }
  }

  /** After its first pair was removed, a name is gone exactly if it occurred once. */
  lemma RemovedGone(h: Heap, h': Heap, content: seq<Id>, key: string)
    requires AllIn(h, content) && |content| % 2 == 0 && LabelsStay(h, h')
    requires PairIndex(h, content, key, 0) < |content| / 2
    ensures AllIn(h', Without(content, PairIndex(h, content, key, 0)))
    ensures ValueOf(h', Without(content, PairIndex(h, content, key, 0)), key).None? <==> OnceIn(h, content, key)
  {
    var k := PairIndex(h, content, key, 0);
    var rest := Without(content, k);
    var at := PairIndex(h', rest, key, 0);
    if at < |rest| / 2 {
      WithoutAt(content, k, at);
      var j := if at < k then at else at + 1;
      assert h[content[2 * j]].value == key && h[content[2 * k]].value == key;
    } else if !OnceIn(h, content, key) {
      var i, j :| 0 <= i < j < |content| / 2 && h[content[2 * i]].value == key && h[content[2 * j]].value == key;
      assert k <= i;
      WithoutAt(content, k, j - 1);
      assert false;
    }
  }

  lemma RemovedOnce(h: Heap, h': Heap, content: seq<Id>, k: nat, other: string)
    requires AllIn(h, content) && |content| % 2 == 0 && LabelsStay(h, h') && k < |content| / 2
    requires h[content[2 * k]].value != other
    ensures AllIn(h', Without(content, k)) && (OnceIn(h', Without(content, k), other) <==> OnceIn(h, content, other))
  {
    if !OnceIn(h, content, other) {
      TwiceBefore(h, h', content, k, other);
    }
    if !OnceIn(h', Without(content, k), other) {
      TwiceAfter(h, h', content, k, other);
    }
  }

  lemma TwiceBefore(h: Heap, h': Heap, content: seq<Id>, k: nat, other: string)
    requires AllIn(h, content) && |content| % 2 == 0 && LabelsStay(h, h') && k < |content| / 2
    requires h[content[2 * k]].value != other && !OnceIn(h, content, other)
    ensures AllIn(h', Without(content, k)) && !OnceIn(h', Without(content, k), other)
  {
    var rest := Without(content, k);
    var i, j :| 0 <= i < j < |content| / 2 && h[content[2 * i]].value == other && h[content[2 * j]].value == other;
    var i', j' := if i < k then i else i - 1, if j < k then j else j - 1;
    WithoutAt(content, k, i');
    WithoutAt(content, k, j');
    assert h'[rest[2 * i']].value == other && h'[rest[2 * j']].value == other;
  }

  lemma TwiceAfter(h: Heap, h': Heap, content: seq<Id>, k: nat, other: string)
    requires AllIn(h, content) && |content| % 2 == 0 && LabelsStay(h, h') && k < |content| / 2
    requires AllIn(h', Without(content, k)) && !OnceIn(h', Without(content, k), other)
    ensures !OnceIn(h, content, other)
  {
    var rest := Without(content, k);
    var i, j :| 0 <= i < j < |rest| / 2 && h'[rest[2 * i]].value == other && h'[rest[2 * j]].value == other;
    WithoutAt(content, k, i);
    WithoutAt(content, k, j);
    var i', j' := if i < k then i else i + 1, if j < k then j else j + 1;
    assert h[content[2 * i']].value == other && h[content[2 * j']].value == other;
  }

  // From the document to its copy

  /** The tag of an alias is that of what it stands for. */
  ghost predicate TagsRead(s: Heap)
    requires Closed(s)
  {
    forall n <- s :: s[Resolved(s, n, {})].kind.Alias? || s[n].tag == s[Resolved(s, n, {})].tag
  }

  ghost predicate Alike(s: Heap, base: Option<Id>, c: Heap, base': Option<Id>)
    requires Closed(s) && Closed(c) && (base.Some? ==> base.value in s) && (base'.Some? ==> base'.value in c)
  {
    (base.Some? <==> base'.Some?) && (base.Some? ==> Same(s, base.value, c, base'.value))
  }

  lemma AlikeEntries(s: Heap, base: Option<Id>, c: Heap, base': Option<Id>)
    requires Closed(s) && Closed(c) && (base.Some? ==> base.value in s) && (base'.Some? ==> base'.value in c)
    requires Alike(s, base, c, base') && KeysRead(s) && Legible(s, base)
    ensures Legible(c, base') && SameEntries(s, EntriesOf(s, base), c, EntriesOf(c, base'))
  {
    hide Materialized, Same, KeysRead, Closed;
    if base.Some? {
      CopyHasSameEntries(s, base.value, {}, c, base'.value, {});
    }
  }

  lemma ReadsFirst(h: Heap, base: Option<Id>, key: string)
    requires Closed(h) && (base.Some? ==> base.value in h) && Legible(h, base)
    ensures BaseReads(h, base, key) == First(EntriesOf(h, base), key)
  {
    hide Materialized, Genuine;
    NeverBroken(EntriesOf(h, base), key);
  }

  lemma AlikeChild(s: Heap, base: Option<Id>, c: Heap, base': Option<Id>, key: string)
    requires Closed(s) && Closed(c) && (base.Some? ==> base.value in s) && (base'.Some? ==> base'.value in c)
    requires Alike(s, base, c, base') && KeysRead(s) && TagsRead(s) && Legible(s, base)
    ensures Legible(c, base') && SameEntries(s, EntriesOf(s, base), c, EntriesOf(c, base'))
    ensures var child, child' := BaseChild(s, base, key), BaseChild(c, base', key);
            && (child.Some? ==> child.value in s) && (child'.Some? ==> child'.value in c)
            && Alike(s, child, c, child')
  {
    hide KeysRead, TagsRead, Same, Closed, Legible, BaseReads, EntriesOf, SameEntries, First;
    BaseChildIn(s, base, key);
    BaseChildIn(c, base', key);
    AlikeEntries(s, base, c, base');
    ReadsFirst(s, base, key);
    ReadsFirst(c, base', key);
    SameFirst(s, EntriesOf(s, base), c, EntriesOf(c, base'), key);
    if BaseReads(s, base, key).Found? {
      SameTag(s, BaseReads(s, base, key).value, c, BaseReads(c, base', key).value);
    }
  }

  lemma SameTag(s: Heap, x: Id, c: Heap, y: Id)
    requires Closed(s) && Closed(c) && x in s && y in c && Same(s, x, c, y) && TagsRead(s)
    ensures c[y].tag == s[x].tag
  {
  }

  /** What is editable in a document is editable in its copy, and has the same entries there. */
  lemma {:induction false} EditableInCopy(s: Heap, base: Option<Id>, c: Heap, base': Option<Id>, path: Chain)
    requires Closed(s) && Closed(c) && (base.Some? ==> base.value in s) && (base'.Some? ==> base'.value in c)
    requires Alike(s, base, c, base') && KeysRead(s) && TagsRead(s) && Editable(s, base, path)
    ensures Editable(c, base', path)
    ensures SameEntries(s, EntriesOf(s, BaseAt(s, base, path)), c, EntriesOf(c, BaseAt(c, base', path)))
    decreases |path|
  {
    hide Alike, KeysRead, TagsRead, Legible, BaseChild, EntriesOf, SameEntries;
    AlikeChild(s, base, c, base', if path == [] then "" else path[0]);
    if path != [] {
      EditableInCopy(s, BaseChild(s, base, path[0]), c, BaseChild(c, base', path[0]), path[1..]);
    }
  }

  /** No explicit name occurs twice in this mapping. */
  predicate ExplicitOnce(s: Heap, base: Option<Id>)
    requires Closed(s) && (base.Some? ==> base.value in s)
  {
    base.Some? ==> DistinctNames(Explicit(s, Resolved(s, base.value, {})))
  }

  lemma OnceInCopy(s: Heap, base: Option<Id>, c: Heap, base': Option<Id>, key: string)
    requires Closed(s) && Closed(c) && (base.Some? ==> base.value in s) && (base'.Some? ==> base'.value in c)
    requires SameEntries(s, EntriesOf(s, base), c, EntriesOf(c, base')) && ExplicitOnce(s, base)
    ensures OnceNamed(EntriesOf(c, base'), key)
  {
    hide Materialized, Explicit, Resolved, Same;
    if base.Some? && Materialized(s, base.value, {}).Some? {
      MaterializedDistinct(s, base.value, {});
    }
    var a, b := EntriesOf(s, base), EntriesOf(c, base');
    forall i | 0 <= i < |b|
      ensures b[i].name == a[i].name
    {
      assert SameEntry(s, a[i], c, b[i]);
    }
  }

  lemma SpelledTags(h: Heap)
    requires Closed(h)
    ensures Closed(Spelled(h)) && TagsRead(Spelled(h))
  {
    SpelledShape(h);
    var s := Spelled(h);
    forall n | n in s
      ensures s[Resolved(s, n, {})].kind.Alias? || s[n].tag == s[Resolved(s, n, {})].tag
    {
      YamlMergeKeys.SameResolved(h, s, n, {});
    }
  }
}
