/** Assembling images from chunks (internal/gateway/process_images.go:72-462).

    A file is the bytes written to it; SHA-256, base64 and the file system are
    parameters. `spool` is the counter that all receivers of the process share. */
module ImageReceiver {
  import opened MapSum

  const MAX_SPOOL: int := 268435456
  const MAX_IMAGE: int := 33554432
  const MAX_DIMENSION: int := 12000
  const MAX_PIXELS: int := 36_000_000
  const MAX_IMAGES: nat := 5
  const MAX_ENTRIES: nat := 32
  const MAX_SEEN: nat := 1024
  const PREFIX := "artifact:images/sha256-"

  datatype Option<+T> = None | Some(value: T)

  datatype Key = Key(session: string, agent: string, call: string, reference: string)

  datatype Meta = Meta(reference: string, sha256: string, size: int, mime: string, width: int, height: int)

  /** `data` is what was written so far; `open` says that there is a file. */
  datatype Entry = Entry(meta: Meta, data: string, open: bool, refetch: bool)

  datatype Image = Image(key: Key, meta: Meta, data: string)

  /** `data` is None if it is not valid base64. */
  datatype Chunk = Chunk(
    reference: string, size: int, mime: string, width: int, height: int, call: string, request: string, agent: string,
    offset: int, last: bool, tooLong: bool, data: Option<string>)

  /** `images` is None if the summary is not valid JSON. */
  datatype Summary = Summary(agent: string, call: string, success: bool, deliveryError: bool, images: Option<seq<Meta>>)

  /** Which of the file operations succeed. */
  datatype Disk = Disk(created: bool, written: bool, closed: bool)

  datatype Outcome = Ignored | Kept | Delivered | Failed

  predicate LowerHex(s: string) {
    forall i :: 0 <= i < |s| ==> '0' <= s[i] <= '9' || 'a' <= s[i] <= 'f'
  }

  predicate AnyHex(s: string) {
    forall i :: 0 <= i < |s| ==> '0' <= s[i] <= '9' || 'a' <= s[i] <= 'f' || 'A' <= s[i] <= 'F'
  }

  predicate KnownType(mime: string) {
    mime == "image/png" || mime == "image/jpeg" || mime == "image/webp"
  }

  predicate Acceptable(m: Meta) {
    && 0 < m.size <= MAX_IMAGE && 0 < m.width <= MAX_DIMENSION && 0 < m.height <= MAX_DIMENSION
    && m.width * m.height <= MAX_PIXELS && KnownType(m.mime)
    && PREFIX + m.sha256 + "." <= m.reference
  }

  predicate AcceptableResult(m: Meta) {
    |m.sha256| == 64 && AnyHex(m.sha256) && Acceptable(m)
  }

  lemma AllAcceptable(listed: seq<Meta>)
    ensures forall m <- listed :: AcceptableResult(m) ==> Acceptable(m)
  {
  }

  function LastDot(s: string): (i: int)
    ensures -1 <= i < |s|
    ensures i >= 0 ==> s[i] == '.'
    ensures forall j :: i < j < |s| ==> s[j] != '.'
  {
    if s == "" then -1 else if s[|s| - 1] == '.' then |s| - 1 else LastDot(s[..|s| - 1])
  }

  /** The digest that a reference promises for an image of this type. */
  function DigestOf(reference: string, mime: string): Option<string> {
    if !(PREFIX <= reference) then None
    else
      var rest := reference[|PREFIX|..];
      var i := LastDot(rest);
      if i < 0 || i != 64 || !LowerHex(rest[..i]) || !KnownType(mime) || WrongExtension(rest[i + 1..], mime) then None
      else Some(rest[..i])
  }

  predicate WrongExtension(ext: string, mime: string) {
    || (ext == "png" && mime != "image/png")
    || (ext == "jpg" && mime != "image/jpeg")
    || (ext == "webp" && mime != "image/webp")
  }

  /** A digest taken from a reference always passes the check against that reference. */
  lemma DigestFitsReference(reference: string, mime: string)
    ensures var d := DigestOf(reference, mime);
            d.Some? ==> PREFIX + d.value + "." <= reference && |d.value| == 64 && LowerHex(d.value)
  {
    if DigestOf(reference, mime).Some? {
      var rest := reference[|PREFIX|..];
      var i := LastDot(rest);
      assert reference == PREFIX + rest;
      assert rest == rest[..i] + "." + rest[i + 1..];
      assert reference == PREFIX + rest[..i] + "." + rest[i + 1..];
    }
  }

  function MetaOf(p: Chunk, digest: string): Meta {
    Meta(p.reference, digest, p.size, p.mime, p.width, p.height)
  }

  function KeyOf(p: Chunk, session: string): Key {
    Key(session, p.agent, if p.request != "" && p.call == "" && p.agent == "" then p.request else p.call, p.reference)
  }

  predicate SameImage(p: Chunk, m: Meta) {
    p.size == m.size && p.mime == m.mime && p.width == m.width && p.height == m.height
  }

  /** The chunk continues the image exactly where `data` ends and does not overrun it. */
  predicate Continues(p: Chunk, m: Meta, data: string) {
    && p.offset == |data| && SameImage(p, m) && !p.tooLong
    && p.data.Some? && 0 < |p.data.value| && |data| + |p.data.value| <= m.size
  }

  ghost function Joined(parts: seq<Chunk>): string
    requires forall p <- parts :: p.data.Some?
  {
    if parts == [] then "" else Joined(parts[..|parts| - 1]) + parts[|parts| - 1].data.value
  }

  /** `data` was put together from `parts`, each continuing the ones before it. */
  ghost predicate Assembled(parts: seq<Chunk>, m: Meta, data: string)
    decreases |parts|
  {
    if parts == [] then data == ""
    else
      var n := |parts| - 1;
      var p := parts[n];
      && p.data.Some? && |p.data.value| <= |data|
      && var before := data[..|data| - |p.data.value|];
         data == before + p.data.value && Continues(p, m, before) && Assembled(parts[..n], m, before)
  }

  ghost predicate NoneLast(parts: seq<Chunk>) {
    forall p <- parts :: !p.last
  }

  lemma Appended(parts: seq<Chunk>, p: Chunk, m: Meta, data: string)
    requires Assembled(parts, m, data) && Continues(p, m, data)
    ensures Assembled(parts + [p], m, data + p.data.value)
  {
    var all, text := parts + [p], data + p.data.value;
    assert all[..|all| - 1] == parts;
    assert text[..|text| - |p.data.value|] == data;
  }

  /** The chunks agree on the description of the image and concatenate to `data`. */
  lemma {:induction false} AssembledJoins(parts: seq<Chunk>, m: Meta, data: string)
    requires Assembled(parts, m, data)
    ensures forall p <- parts :: p.data.Some? && SameImage(p, m)
    ensures data == Joined(parts)
    ensures parts != [] ==> |data| <= m.size
    decreases |parts|
  {
    if parts != [] {
      var n := |parts| - 1;
      AssembledJoins(parts[..n], m, data[..|data| - |parts[n].data.value|]);
      assert forall p <- parts :: p in parts[..n] || p == parts[n];
    }
  }

  /** Each chunk starts where the ones before it end, the first one at 0. */
  lemma {:induction false} AssembledIsContiguous(parts: seq<Chunk>, m: Meta, data: string, i: nat)
    requires Assembled(parts, m, data) && i < |parts|
    ensures forall p <- parts[..i] :: p.data.Some?
    ensures parts[i].offset == |Joined(parts[..i])|
    decreases |parts|
  {
    var n := |parts| - 1;
    var before := data[..|data| - |parts[n].data.value|];
    AssembledJoins(parts[..n], m, before);
    if i < n {
      AssembledIsContiguous(parts[..n], m, before, i);
      assert parts[..n][..i] == parts[..i] && parts[..n][i] == parts[i];
    }
  }

  function FileBytes(e: Entry): int {
    if e.open then e.meta.size else 0
  }

  function ImageBytes(i: Image): int {
    i.meta.size
  }

  function WithoutCall(entries: map<Key, Entry>, session: string, agent: string, call: string): map<Key, Entry> {
    map key <- entries | !OfCall(key, session, agent, call) :: entries[key]
  }

  ghost predicate EntryOK(key: Key, e: Entry, expected: map<string, Key>) {
    && Acceptable(e.meta) && key.reference == e.meta.reference
    && |e.data| < e.meta.size && (!e.open ==> e.data == "")
    && (!e.refetch ==> key.call != "")
    && (e.refetch ==> key.reference in expected && expected[key.reference] == key)
  }

  /** Live transfers are sound, at most 32, and never overlap the terminal identities. */
  ghost predicate TransfersOK(entries: map<Key, Entry>, expected: map<string, Key>, seen: set<Key>) {
    && |entries| <= MAX_ENTRIES && (forall key <- entries :: EntryOK(key, entries[key], expected) && key !in seen)
    && |expected| <= MAX_ENTRIES && (forall r <- expected :: expected[r].reference == r)
  }

  ghost predicate SeenOK(seen: set<Key>, order: seq<Key>) {
    && |order| <= MAX_SEEN && (forall i, j :: 0 <= i < j < |order| ==> order[i] != order[j])
    && (forall key :: key in seen <==> key in order)
  }

  /** The counter is the size of every open assembly, of every delivered image that
      is not closed, and of what other receivers hold; it stays within its limit. */
  ghost predicate SpoolOK(entries: map<Key, Entry>, images: map<nat, Image>, spool: int, others: int) {
    spool == Sum(entries, FileBytes) + Sum(images, ImageBytes) + others && 0 <= others && spool <= MAX_SPOOL
  }

  /** What is stored of a transfer is what its chunks so far carried. */
  ghost predicate PartsOK(entries: map<Key, Entry>, parts: map<Key, seq<Chunk>>) {
    forall key <- entries :: key in parts && NoneLast(parts[key])
      && Assembled(parts[key], entries[key].meta, entries[key].data)
  }

  /** A delivered image has the promised size and digest, was put together from
      contiguous chunks, and exactly the last of them was marked as the last. */
  ghost predicate Complete(sha: string -> string, i: Image, chunks: seq<Chunk>) {
    && |i.data| == i.meta.size && sha(i.data) == i.meta.sha256 && i.key.reference == i.meta.reference
    && chunks != [] && chunks[|chunks| - 1].last && NoneLast(chunks[..|chunks| - 1])
    && Assembled(chunks, i.meta, i.data)
  }

  /** Every chunk of a delivered image starts where the ones before it end, all of
      them together are the image, and only the final one said that it is the last. */
  lemma CompleteMeaning(sha: string -> string, i: Image, chunks: seq<Chunk>)
    requires Complete(sha, i, chunks)
    ensures forall p <- chunks :: p.data.Some? && SameImage(p, i.meta)
    ensures i.data == Joined(chunks) && |Joined(chunks)| == i.meta.size && sha(Joined(chunks)) == i.meta.sha256
    ensures forall k :: 0 <= k < |chunks| ==> chunks[k].offset == |Joined(chunks[..k])|
    ensures forall k :: 0 <= k < |chunks| ==> (chunks[k].last <==> k == |chunks| - 1)
  {
    hide Assembled, Joined;
    AssembledJoins(chunks, i.meta, i.data);
    forall k | 0 <= k < |chunks|
      ensures chunks[k].offset == |Joined(chunks[..k])| && (chunks[k].last <==> k == |chunks| - 1)
    {
      AssembledIsContiguous(chunks, i.meta, i.data, k);
      assert k < |chunks| - 1 ==> chunks[k] in chunks[..|chunks| - 1];
    }
  }

  function SmallLetter(c: char): char {
    if 'A' <= c <= 'F' then c - 'A' + 'a' else c
  }

  /** The same digits, whatever the case of the letters. */
  predicate SameDigits(a: string, b: string) {
    |a| == |b| && forall i :: 0 <= i < |a| ==> SmallLetter(a[i]) == SmallLetter(b[i])
  }

  /** When an announced image arrives, whatever its transfer was so far: if its last
      chunk fits and the disk and the spool allow it, and the bytes have the announced
      digest up to the case of its letters, then it is delivered if and only if the
      summary wrote that digest without capitals. */
  lemma ArrivesExactly(m: Meta, data: string, open: bool, refetch: bool, p: Chunk, spool: int, disk: Disk,
                       sha: string -> string)
    requires forall d :: LowerHex(sha(d))
    requires Continues(p, m, data) && p.last && |data| + |p.data.value| == m.size
    requires disk.written && disk.closed && (open || (disk.created && spool + m.size <= MAX_SPOOL))
    requires SameDigits(sha(data + p.data.value), m.sha256)
    ensures Judged(Entry(m, data, open, refetch), p, spool, disk, sha) == Delivered <==> LowerHex(m.sha256)
  {
    var digest := sha(data + p.data.value);
    if LowerHex(m.sha256) {
      forall i | 0 <= i < |digest| ensures digest[i] == m.sha256[i] {
        assert SmallLetter(digest[i]) == digest[i] && SmallLetter(m.sha256[i]) == m.sha256[i];
      }
      assert digest == m.sha256;
    }
  }

  /** A summary with capitals can never be met, by any chunks. */
  lemma CapitalsNeverArrive(e: Entry, p: Chunk, spool: int, disk: Disk, sha: string -> string)
    requires (forall d :: LowerHex(sha(d))) && !LowerHex(e.meta.sha256)
    ensures Judged(e, p, spool, disk, sha) != Delivered
  {
  }

  /** A summary may write its digest in capitals, but the digest of the bytes is
      written in small letters: such an image is announced and never delivered. */
  lemma CapitalDigestNeverArrives(sha: string -> string)
    requires forall data :: LowerHex(sha(data))
    ensures exists m: Meta ::
              && AcceptableResult(m)
              && forall data, open, refetch, p, spool, disk ::
                   Judged(Entry(m, data, open, refetch), p, spool, disk, sha) != Delivered
  {
    var digest := seq(64, i => 'A');
    var m := Meta(PREFIX + digest + ".png", digest, 1, "image/png", 1, 1);
    assert m.reference == PREFIX + digest + "." + "png";
    assert PREFIX + digest + "." <= m.reference;
    assert AcceptableResult(m);
    assert digest[0] == 'A';
  }

  ghost predicate ImagesOK(sha: string -> string, images: map<nat, Image>, sources: map<nat, seq<Chunk>>, next: nat) {
    forall n <- images :: n < next && n in sources && Complete(sha, images[n], sources[n])
  }

  lemma Dropped(entries: map<Key, Entry>, expected: map<string, Key>, seen: set<Key>, key: Key)
    requires key in entries && TransfersOK(entries, expected, seen)
    ensures TransfersOK(entries - {key}, expected, seen) && |entries - {key}| == |entries| - 1
    ensures Acceptable(entries[key].meta)
  {
    hide Acceptable;
    OneLess(entries, key);
  }

  /** A reference that is no longer asked for leaves no transfer on request behind. */
  lemma Forgotten(entries: map<Key, Entry>, expected: map<string, Key>, seen: set<Key>, reference: string)
    requires reference in expected && expected[reference] !in entries && TransfersOK(entries, expected, seen)
    ensures TransfersOK(entries, expected - {reference}, seen)
  {
    hide Acceptable;
    OneLess(expected, reference);
  }

  lemma Remembered(entries: map<Key, Entry>, expected: map<string, Key>, seen: set<Key>, now: set<Key>, key: Key)
    requires key !in entries && now <= seen + {key} && TransfersOK(entries, expected, seen)
    ensures TransfersOK(entries, expected, now)
  {
    hide Acceptable;
  }

  ghost function AskedBy(expected: map<string, Key>, request: string): set<Key> {
    set r <- expected | expected[r].call == request :: expected[r]
  }

  ghost function AskedByOthers(expected: map<string, Key>, request: string): map<string, Key> {
    map r <- expected | expected[r].call != request :: expected[r]
  }

  lemma OneRequestLess(expected: map<string, Key>, reference: string, request: string)
    requires reference in expected && expected[reference].call == request
    requires forall r <- expected :: expected[r].reference == r
    ensures AskedByOthers(expected - {reference}, request) == AskedByOthers(expected, request)
    ensures AskedBy(expected - {reference}, request) == AskedBy(expected, request) - {expected[reference]}
    ensures expected[reference] in AskedBy(expected, request)
  {
    var rest := expected - {reference};
    forall r | r in expected && expected[r].call == request && r != reference
      ensures expected[r] in AskedBy(rest, request)
    {
      assert r in rest && rest[r] == expected[r];
    }
  }

  lemma NothingAsked(expected: map<string, Key>, request: string)
    requires forall r <- expected :: expected[r].call != request
    ensures AskedBy(expected, request) == {} && AskedByOthers(expected, request) == expected
  {
  }

  lemma OneMoreGone(entries: map<Key, Entry>, all: set<Key>, left: set<Key>, key: Key)
    requires key in left && left <= all
    ensures entries - (all - left) - {key} == entries - (all - (left - {key}))
  {
    assert all - (left - {key}) == (all - left) + {key};
  }

  lemma NewestIsNotOldest(seen: set<Key>, order: seq<Key>)
    requires SeenOK(seen, order)
    ensures |order| == MAX_SEEN ==> order[0] != order[|order| - 1]
  {
  }

  lemma Emptied(images: map<nat, Image>, spool: int, others: int, parts: map<Key, seq<Chunk>>)
    requires SpoolOK(map[], images, spool, others)
    ensures TransfersOK(map[], map[], {}) && SeenOK({}, []) && PartsOK(map[], parts)
    ensures spool == Sum(images, ImageBytes) + others
  {
  }

  function References(entries: map<Key, Entry>): set<string> {
    set key <- entries :: key.reference
  }

  lemma OneLessAsked(expected: map<string, Key>, refs: set<string>, r: string)
    requires r in expected
    ensures |expected.Keys - refs| == |(expected - {r}).Keys - refs| + if r in refs then 0 else 1
  {
    assert (expected - {r}).Keys - refs == expected.Keys - refs - {r};
  }

  lemma SubsetSize(a: set<Key>, b: set<Key>)
    requires a <= b
    ensures |a| <= |b|
  {
    assert b == a + (b - a);
  }

  lemma StillFew(before: map<Key, Entry>, added: set<Key>, after: map<Key, Entry>)
    requires after.Keys <= before.Keys + added
    ensures |after| <= |before| + |added|
  {
    hide *;
    SubsetSize(after.Keys, before.Keys + added);
  }

  predicate OfCall(key: Key, session: string, agent: string, call: string) {
    key.session == session && key.agent == agent && key.call == call
  }

  predicate AcceptableHere(m: Meta, p: Summary, session: string, entries: map<Key, Entry>) {
    var key := Key(session, p.agent, p.call, m.reference);
    AcceptableResult(m) && (key in entries ==> entries[key].meta == m)
  }

  function NewKeys(p: Summary, session: string, entries: map<Key, Entry>, seen: set<Key>, listed: seq<Meta>): set<Key> {
    set m <- listed, key | key == Key(session, p.agent, p.call, m.reference) && key !in seen && key !in entries :: key
  }

  lemma NewKeysOfNothing(p: Summary, session: string, entries: map<Key, Entry>, seen: set<Key>)
    ensures NewKeys(p, session, entries, seen, []) == {}
  {
  }

  lemma NewKeysStep(p: Summary, session: string, entries: map<Key, Entry>, seen: set<Key>, listed: seq<Meta>, i: nat)
    requires i < |listed|
    ensures var before, key := NewKeys(p, session, entries, seen, listed[..i]),
              Key(session, p.agent, p.call, listed[i].reference);
            NewKeys(p, session, entries, seen, listed[..i + 1]) == if key !in seen
              && key !in entries then before + {key} else before
  {
    assert listed[..i + 1] == listed[..i] + [listed[i]];
  }

  lemma NewKeysAreNew(p: Summary, session: string, entries: map<Key, Entry>, seen: set<Key>, listed: seq<Meta>)
    ensures NewKeys(p, session, entries, seen, listed) !! seen
            && NewKeys(p, session, entries, seen, listed) !! entries.Keys
  {
  }

  /** A summary that may announce images. */
  ghost predicate Sound(p: Summary, session: string, entries: map<Key, Entry>, seen: set<Key>) {
    && p.success && !p.deliveryError && p.images.Some? && session != "" && p.call != ""
    && 0 < |p.images.value| <= MAX_IMAGES
    && (forall m <- p.images.value :: AcceptableHere(m, p, session, entries))
    && |entries| + |NewKeys(p, session, entries, seen, p.images.value)| <= MAX_ENTRIES
  }

  ghost function Announced(entries: map<Key, Entry>, added: set<Key>, p: Summary, session: string,
                           listed: seq<Meta>): map<Key, Entry> {
    if listed == [] then entries
    else
      var m := listed[|listed| - 1];
      var before := Announced(entries, added, p, session, listed[..|listed| - 1]);
      var key := Key(session, p.agent, p.call, m.reference);
      if key in added then before[key := Entry(m, "", false, false)] else before
  }

  /** Transfers that the summary does not start stay as they are. */
  lemma {:induction false} AnnouncedKeepsOthers(entries: map<Key, Entry>, added: set<Key>, p: Summary, session: string,
                                                listed: seq<Meta>, key: Key)
    requires key !in added
    ensures var after := Announced(entries, added, p, session, listed);
            (key in after <==> key in entries) && (key in entries ==> after[key] == entries[key])
  {
    if listed != [] {
      AnnouncedKeepsOthers(entries, added, p, session, listed[..|listed| - 1], key);
    }
  }

  /** Every new image starts empty, as the summary describes it last. */
  lemma {:induction false} AnnouncedStarts(entries: map<Key, Entry>, added: set<Key>, p: Summary, session: string,
                                           listed: seq<Meta>, i: nat)
    requires i < |listed| && Key(session, p.agent, p.call, listed[i].reference) in added
    requires forall j :: i < j < |listed| ==> listed[j].reference != listed[i].reference
    ensures var after, key := Announced(entries, added, p, session, listed),
              Key(session, p.agent, p.call, listed[i].reference);
            key in after && after[key] == Entry(listed[i], "", false, false)
  {
    var n := |listed| - 1;
    if i < n {
      AnnouncedStarts(entries, added, p, session, listed[..n], i);
      assert listed[n].reference != listed[i].reference;
    }
  }

  lemma AnnouncedNothing(entries: map<Key, Entry>, added: set<Key>, p: Summary, session: string)
    ensures Announced(entries, added, p, session, []) == entries
  {
  }

  lemma AnnouncedStep(entries: map<Key, Entry>, added: set<Key>, p: Summary, session: string, listed: seq<Meta>, i: nat)
    requires i < |listed|
    ensures var before, key := Announced(entries, added, p, session, listed[..i]),
              Key(session, p.agent, p.call, listed[i].reference);
            Announced(entries, added, p, session, listed[..i + 1])
              == if key in added then before[key := Entry(listed[i], "", false, false)] else before
  {
    assert listed[..i + 1][..i] == listed[..i];
  }

  lemma OneOfCallLess(entries: map<Key, Entry>, session: string, agent: string, call: string, key: Key)
    requires key in entries && OfCall(key, session, agent, call)
    ensures WithoutCall(entries - {key}, session, agent, call) == WithoutCall(entries, session, agent, call)
  {
  }

  lemma NoneOfCall(entries: map<Key, Entry>, session: string, agent: string, call: string)
    requires forall key <- entries :: !OfCall(key, session, agent, call)
    ensures WithoutCall(entries, session, agent, call) == entries && Key(session, agent, call, "") !in entries
  {
    assert OfCall(Key(session, agent, call, ""), session, agent, call);
  }

  /** The entry that the first chunk of an image on request starts, if it is sound. */
  function Adopted(p: Chunk, key: Key, expected: map<string, Key>, live: nat): Option<Entry> {
    var digest := DigestOf(p.reference, p.mime);
    if p.reference in expected && expected[p.reference] == key && p.call == "" && p.agent == "" && p.offset == 0
       && digest.Some? && Acceptable(MetaOf(p, digest.value)) && live < MAX_ENTRIES
    then Some(Entry(MetaOf(p, digest.value), "", false, true)) else None
  }

  function Released(expected: map<string, Key>, p: Chunk, key: Key): map<string, Key> {
    if p.reference in expected && expected[p.reference] == key && p.call == ""
      && p.agent == "" then expected - {p.reference} else expected
  }

  function Extended(e: Entry, p: Chunk): Entry
    requires p.data.Some?
  {
    Entry(e.meta, e.data + p.data.value, e.open, e.refetch)
  }

  lemma NewEntry(entries: map<Key, Entry>, expected: map<string, Key>, seen: set<Key>, key: Key, m: Meta, refetch: bool)
    requires TransfersOK(entries, expected, seen) && Acceptable(m) && key.reference == m.reference && key !in seen
    requires if refetch then key.reference in expected && expected[key.reference] == key else key.call != ""
    requires |entries[key := Entry(m, "", false, refetch)]| <= MAX_ENTRIES
    ensures TransfersOK(entries[key := Entry(m, "", false, refetch)], expected, seen)
  {
    assert Acceptable(m) ==> m.size > 0;
    hide Acceptable;
  }

  lemma NewEntryIsFree(entries: map<Key, Entry>, images: map<nat, Image>, spool: int, others: int,
                       parts: map<Key, seq<Chunk>>, key: Key, m: Meta, refetch: bool)
    requires SpoolOK(entries, images, spool, others) && PartsOK(entries, parts)
    requires key in entries ==> !entries[key].open
    ensures SpoolOK(entries[key := Entry(m, "", false, refetch)], images, spool, others)
    ensures PartsOK(entries[key := Entry(m, "", false, refetch)], parts[key := []])
  {
    hide Sum;
    if key in entries {
      Replaced(entries, key, Entry(m, "", false, refetch), FileBytes);
    } else {
      Inserted(entries, key, Entry(m, "", false, refetch), FileBytes);
    }
  }

  lemma OnlyOneAsked(entries: map<Key, Entry>, expected: map<string, Key>, seen: set<Key>, key: Key)
    requires key in entries && TransfersOK(entries, expected, seen)
    ensures key !in seen && key.reference == entries[key].meta.reference
    ensures entries[key].refetch ==> key.reference in expected && expected[key.reference] == key
  {
    hide Acceptable;
  }

  /** No transfer on request is left once its reference is not asked for any more. */
  lemma NotLive(entries: map<Key, Entry>, expected: map<string, Key>, seen: set<Key>, reference: string, key: Key)
    requires reference !in expected && key.reference == reference && key.call == ""
             && TransfersOK(entries, expected, seen)
    ensures key !in entries
  {
    hide Acceptable;
  }

  lemma Opened(entries: map<Key, Entry>, expected: map<string, Key>, seen: set<Key>, key: Key)
    requires key in entries && !entries[key].open && TransfersOK(entries, expected, seen)
    ensures TransfersOK(entries[key := Entry(entries[key].meta, "", true, entries[key].refetch)], expected, seen)
    ensures entries[key].meta.size > 0 && entries[key].data == ""
  {
    assert Acceptable(entries[key].meta);
    assert entries[key].meta.size > 0;
    hide Acceptable;
    assert |entries[key := Entry(entries[key].meta, "", true, entries[key].refetch)]| == |entries|;
  }

  lemma OpenedBytes(entries: map<Key, Entry>, images: map<nat, Image>, spool: int, others: int,
                    parts: map<Key, seq<Chunk>>, key: Key)
    requires key in entries && !entries[key].open && entries[key].data == ""
    requires SpoolOK(entries, images, spool, others) && PartsOK(entries, parts)
             && spool + entries[key].meta.size <= MAX_SPOOL
    ensures SpoolOK(entries[key := Entry(entries[key].meta, "", true, entries[key].refetch)], images,
                    spool + entries[key].meta.size, others)
    ensures PartsOK(entries[key := Entry(entries[key].meta, "", true, entries[key].refetch)], parts)
  {
    hide Sum, Assembled;
    Replaced(entries, key, Entry(entries[key].meta, "", true, entries[key].refetch), FileBytes);
  }

  lemma Grown(entries: map<Key, Entry>, expected: map<string, Key>, seen: set<Key>, key: Key, p: Chunk)
    requires key in entries && entries[key].open && p.data.Some? && TransfersOK(entries, expected, seen)
    requires |entries[key].data| + |p.data.value| < entries[key].meta.size
    ensures TransfersOK(entries[key := Extended(entries[key], p)], expected, seen)
  {
    hide Acceptable;
    assert |entries[key := Extended(entries[key], p)]| == |entries|;
  }

  lemma GrownBytes(entries: map<Key, Entry>, images: map<nat, Image>, spool: int, others: int,
                   parts: map<Key, seq<Chunk>>, key: Key, p: Chunk)
    requires key in entries && !p.last && Continues(p, entries[key].meta, entries[key].data)
    requires SpoolOK(entries, images, spool, others) && PartsOK(entries, parts)
    ensures key in parts && SpoolOK(entries[key := Extended(entries[key], p)], images, spool, others)
    ensures PartsOK(entries[key := Extended(entries[key], p)], parts[key := parts[key] + [p]])
  {
    hide Sum, Assembled;
    Replaced(entries, key, Extended(entries[key], p), FileBytes);
    Appended(parts[key], p, entries[key].meta, entries[key].data);
  }

  lemma WasDelivered(entries: map<Key, Entry>, parts: map<Key, seq<Chunk>>, sha: string -> string,
                     images: map<nat, Image>, sources: map<nat, seq<Chunk>>, next: nat, key: Key, p: Chunk)
    requires key in entries && PartsOK(entries, parts) && ImagesOK(sha, images, sources, next)
    requires p.last && Continues(p, entries[key].meta, entries[key].data)
             && key.reference == entries[key].meta.reference
    requires var e := Extended(entries[key], p); |e.data| == e.meta.size && sha(e.data) == e.meta.sha256
    ensures next !in images && key in parts
    ensures ImagesOK(sha, images[next := Image(key, entries[key].meta, Extended(entries[key], p).data)],
                     sources[next := parts[key] + [p]], next + 1)
  {
    hide Assembled;
    Appended(parts[key], p, entries[key].meta, entries[key].data);
    assert (parts[key] + [p])[..|parts[key]|] == parts[key];
    assert Complete(sha, Image(key, entries[key].meta, Extended(entries[key], p).data), parts[key] + [p]);
    hide Complete;
  }

  lemma DeliveredBytes(entries: map<Key, Entry>, images: map<nat, Image>, spool: int, others: int, key: Key,
                       image: Image, n: nat,
                       parts: map<Key, seq<Chunk>>)
    requires key in entries && entries[key].open && image.meta == entries[key].meta && n !in images
    requires SpoolOK(entries, images, spool, others) && PartsOK(entries, parts)
    ensures SpoolOK(entries - {key}, images[n := image], spool, others) && PartsOK(entries - {key}, parts)
  {
    hide Sum, Assembled;
    Removed(entries, key, FileBytes);
    Inserted(images, n, image, ImageBytes);
  }

  function Current(p: Chunk, key: Key, entries: map<Key, Entry>, expected: map<string, Key>): Option<Entry> {
    if key in entries then Some(entries[key]) else Adopted(p, key, expected, |entries|)
  }

  /** What becomes of a transfer that this chunk reaches. */
  function Judged(e: Entry, p: Chunk, spool: int, disk: Disk, sha: string -> string): Outcome {
    if !Continues(p, e.meta, e.data) || !disk.written then Failed
    else if !e.open && !(spool + e.meta.size <= MAX_SPOOL && disk.created) then Failed
    else
      var data := e.data + p.data.value;
      if !p.last then if |data| < e.meta.size then Kept else Failed
      else if |data| == e.meta.size && sha(data) == e.meta.sha256 && disk.closed then Delivered else Failed
  }

  /** How the outcome shows in the transfers, the requests and the images. */
  ghost predicate After(outcome: Outcome, n: nat, e: Entry, p: Chunk, key: Key,
                        was: map<Key, Entry>, now: map<Key, Entry>, asked: map<string, Key>, asking: map<string, Key>,
                        delivered: map<nat, Image>, images: map<nat, Image>) {
    match outcome
    case Ignored => false
    case Kept => p.data.Some? && now == was[key := Entry(e.meta, e.data + p.data.value, true, e.refetch)]
      && asking == asked && images == delivered
    case Failed => now == was - {key} && asking == (if e.refetch then asked - {key.reference} else asked)
      && images == delivered
    case Delivered =>
      && p.data.Some? && now == was - {key} && asking == (if e.refetch then asked - {key.reference} else asked)
      && n !in delivered && images == delivered[n := Image(key, e.meta, e.data + p.data.value)]
  }

  /** The identities that become terminal with a transfer. */
  function EndedBy(outcome: Outcome, e: Entry, key: Key): set<Key> {
    if outcome == Delivered && e.refetch then {key, Key(key.session, "", "", key.reference)} else {key}
  }

  /** The bytes that the spool counter gains or loses with the outcome. */
  function Reserved(outcome: Outcome, e: Entry): int {
    if outcome == Failed then -FileBytes(e) else e.meta.size - FileBytes(e)
  }

  /** What chunks read and change. */
  datatype View = View(entries: map<Key, Entry>, expected: map<string, Key>, seen: set<Key>, images: map<nat, Image>,
                       spool: int)

  /** The identity that ends every transfer of the chunk's call. */
  function Ender(p: Chunk, session: string): Key {
    Key(session, p.agent, p.call, "")
  }

  /** What one chunk changes, and its answer. */
  ghost predicate Accepts(sha: string -> string, was: View, p: Chunk, session: string, disk: Disk, outcome: Outcome,
                          n: nat, now: View) {
    var key := KeyOf(p, session);
    if key in was.seen || Ender(p, session) in was.seen then outcome == Ignored && now == was
    else
      var e := Current(p, key, was.entries, was.expected);
      if e.None? then
        && outcome == Failed && key in now.seen && now.seen <= was.seen + {key}
        && now == was.(expected := Released(was.expected, p, key), seen := now.seen)
      else
        && outcome == Judged(e.value, p, was.spool, disk, sha)
        && After(outcome, n, e.value, p, key, was.entries, now.entries, was.expected, now.expected, was.images,
                 now.images)
        && now.spool == was.spool + Reserved(outcome, e.value)
        && if outcome.Kept? then now.seen == was.seen
           else key in now.seen && now.seen <= was.seen + EndedBy(outcome, e.value, key)
  }

  lemma AfterAdoption(outcome: Outcome, n: nat, e: Entry, p: Chunk, key: Key, was: map<Key, Entry>, now: View,
                      asked: map<string, Key>, delivered: map<nat, Image>)
    requires key !in was
    requires After(outcome, n, e, p, key, was[key := e], now.entries, asked, now.expected, delivered, now.images)
    ensures After(outcome, n, e, p, key, was, now.entries, asked, now.expected, delivered, now.images)
  {
    assert was[key := e] - {key} == was - {key};
  }

  class Receiver {
    const sha: string -> string
    var entries: map<Key, Entry>
    var expected: map<string, Key>
    var seen: set<Key>
    var seenOrder: seq<Key>
    var spool: int
    /** Delivered images that are not closed yet. */
    var images: map<nat, Image>
    var next: nat
    /** What other receivers hold of the spool. */
    ghost var others: int
    /** The accepted chunks of every live transfer and of every delivered image. */
    ghost var parts: map<Key, seq<Chunk>>
    ghost var sources: map<nat, seq<Chunk>>

    ghost predicate Valid()
      reads this
    {
      && TransfersOK(entries, expected, seen) && SeenOK(seen, seenOrder)
      && SpoolOK(entries, images, spool, others) && PartsOK(entries, parts) && ImagesOK(sha, images, sources, next)
    }

    ghost function Now(): View
      reads this
    {
      View(entries, expected, seen, images, spool)
    }

    constructor (sha: string -> string)
      ensures Valid() && entries == map[] && spool == 0
    {
      this.sha := sha;
      entries, expected, seen, seenOrder := map[], map[], {}, [];
      spool, images, next := 0, map[], 0;
      others, parts, sources := 0, map[], map[];
    }

    /** The newest identity is remembered; at most the oldest one is forgotten. */
    method RememberTerminal(key: Key)
      requires SeenOK(seen, seenOrder)
      modifies this`seen, this`seenOrder
      ensures SeenOK(seen, seenOrder) && key in seen && seen <= old(seen) + {key}
      ensures forall k <- old(seen) :: k in seen || (|old(seenOrder)| == MAX_SEEN && k == old(seenOrder[0]))
      ensures key in old(seen) ==> seen == old(seen)
      ensures key !in old(seen) ==> |seenOrder| > 0 && seenOrder[|seenOrder| - 1] == key
    {
      if key in seen {
        return;
      }
      if |seenOrder| >= MAX_SEEN {
        seen := seen - {seenOrder[0]};
        seenOrder := seenOrder[1..];
      }
      seen := seen + {key};
      seenOrder := seenOrder + [key];
    }

    /** A transfer is given up: its file is removed and its bytes are returned. */
    method Drop(key: Key)
      requires key in entries && Valid()
      modifies this`entries, this`spool
      ensures entries == old(entries) - {key} && Valid()
      ensures spool == old(spool) - FileBytes(old(entries[key]))
    {
      hide Sum, TransfersOK, SeenOK, ImagesOK, Assembled;
      Removed(entries, key, FileBytes);
      Dropped(entries, expected, seen, key);
      if entries[key].open {
        spool := spool - entries[key].meta.size;
      }
      entries := entries - {key};
    }

    /** Other receivers of the process reserve and return bytes in between. */
    method OthersAct(bytes: int)
      requires Valid()
      requires 0 <= others + bytes && spool + bytes <= MAX_SPOOL
      modifies this`spool, this`others
      ensures Valid() && spool == old(spool) + bytes
    {
      hide Sum, TransfersOK, SeenOK, PartsOK, ImagesOK;
      spool, others := spool + bytes, others + bytes;
    }

    /** The outbound queue closes a delivered image; closing twice is harmless. */
    method CloseImage(n: nat)
      requires Valid()
      modifies this`spool, this`images
      ensures Valid() && images == old(images) - {n}
      ensures spool == old(spool) - (if n in old(images) then old(images[n]).meta.size else 0)
    {
      hide Sum, TransfersOK, SeenOK, PartsOK, Assembled;
      if n in images {
        Removed(images, n, ImageBytes);
        assert Complete(sha, images[n], sources[n]);
        spool := spool - images[n].meta.size;
        images := images - {n};
      }
    }

    /** True exactly if this reference is neither asked for, nor arriving, nor has
        already arrived on request, and fewer than 32 references are asked for. */
    method ExpectRefetch(session: string, reference: string, request: string) returns (ok: bool)
      requires Valid()
      modifies this`expected
      ensures Valid()
      ensures ok <==>
                reference !in old(expected) && |old(expected)| < MAX_ENTRIES
                && Key(session, "", "", reference) !in seen
      ensures expected == if ok then old(expected)[reference := Key(session, "", request, reference)] else old(expected)
    {
      hide Sum, SeenOK, PartsOK, ImagesOK, SpoolOK, Acceptable;
      if exists key :: key in entries && key.session == session && key.reference == reference && entries[key].refetch {
        ok := false;
      } else if Key(session, "", "", reference) in seen || |expected| >= MAX_ENTRIES || reference in expected {
        ok := false;
      } else {
        ok := true;
        expected := expected[reference := Key(session, "", request, reference)];
      }
    }

    method EndRefetch(reference: string)
      requires Valid() && reference in expected
      modifies this`entries, this`expected, this`seen, this`seenOrder, this`spool
      ensures Valid() && expected == old(expected) - {reference} && entries == old(entries) - {old(expected)[reference]}
      ensures old(expected)[reference] in seen
    {
      hide TransfersOK, SeenOK, SpoolOK, PartsOK, ImagesOK;
      var key := expected[reference];
      if key in entries {
        Drop(key);
      }
      ghost var before := seen;
      RememberTerminal(key);
      Remembered(entries, expected, before, seen, key);
      Forgotten(entries, expected, seen, reference);
      expected := expected - {reference};
    }

    lemma OwnReferences()
      requires Valid()
      ensures forall r <- expected :: expected[r].reference == r
    {
      hide SeenOK, SpoolOK, PartsOK, ImagesOK, EntryOK;
    }

    /** Only transfers that were asked for by this request end, with nothing left. */
    method CancelRefetch(request: string)
      requires Valid()
      modifies this`entries, this`expected, this`seen, this`seenOrder, this`spool
      ensures Valid()
      ensures request == "" ==> entries == old(entries) && expected == old(expected)
      ensures request != "" ==> expected == AskedByOthers(old(expected), request)
      ensures request != "" ==> entries == old(entries) - AskedBy(old(expected), request)
    {
      hide Valid, AskedBy, AskedByOthers;
      if request == "" {
        return;
      }
      while exists r :: r in expected && expected[r].call == request
        invariant Valid()
        invariant AskedByOthers(expected, request) == AskedByOthers(old(expected), request)
        invariant entries == old(entries) - (AskedBy(old(expected), request) - AskedBy(expected, request))
        invariant AskedBy(expected, request) <= AskedBy(old(expected), request)
        decreases |expected|
      {
        var r :| r in expected && expected[r].call == request;
        OwnReferences();
        OneLess(expected, r);
        OneRequestLess(expected, r, request);
        OneMoreGone(old(entries), AskedBy(old(expected), request), AskedBy(expected, request), expected[r]);
        EndRefetch(r);
      }
      NothingAsked(expected, request);
    }

    /** Every assembly is discarded and nothing is remembered; delivered images stay. */
    method Reset()
      requires Valid()
      modifies this`entries, this`expected, this`seen, this`seenOrder, this`spool
      ensures Valid() && entries == map[] && expected == map[] && seen == {}
      ensures spool == Sum(images, ImageBytes) + others
    {
      hide TransfersOK, SeenOK, SpoolOK, PartsOK, ImagesOK, Sum;
      while entries != map[]
        invariant Valid()
        decreases |entries|
      {
        var key :| key in entries;
        OneLess(entries, key);
        Drop(key);
      }
      Emptied(images, spool, others, parts);
      expected, seen, seenOrder := map[], {}, [];
    }

    /** Everything incomplete is given up and counted once; delivered images stay. */
    method Finish() returns (count: nat)
      requires Valid()
      modifies this`entries, this`expected, this`seen, this`seenOrder, this`spool
      ensures Valid() && entries == map[] && expected == map[]
      ensures count == |old(entries)| + |old(expected).Keys - References(old(entries))|
    {
      hide *;
      count := |entries|;
      var refs := References(entries);
      EndAll();
      while expected != map[]
        invariant Valid() && entries == map[]
        invariant count + |expected.Keys - refs| == |old(entries)| + |old(expected).Keys - refs|
        decreases |expected|
      {
        var r :| r in expected;
        OneLess(expected, r);
        OneLessAsked(expected, refs, r);
        if r !in refs {
          count := count + 1;
        }
        EndRefetch(r);
      }
    }

    method EndAll()
      requires Valid()
      modifies this`entries, this`seen, this`seenOrder, this`spool
      ensures Valid() && entries == map[]
    {
      hide Valid, Sum;
      while entries != map[]
        invariant Valid()
        decreases |entries|
      {
        var key :| key in entries;
        OneLess(entries, key);
        End(key);
      }
    }

    /** A transfer is given up and its identity is terminal. */
    method End(key: Key)
      requires Valid() && key in entries
      modifies this`entries, this`seen, this`seenOrder, this`spool
      ensures Valid() && entries == old(entries) - {key} && key in seen && seen <= old(seen) + {key}
      ensures spool == old(spool) - FileBytes(old(entries[key]))
    {
      hide TransfersOK, SeenOK, SpoolOK, PartsOK, ImagesOK;
      Drop(key);
      ghost var before := seen;
      RememberTerminal(key);
      Remembered(entries, expected, before, seen, key);
    }

    /** failCall: the call's transfers end, later chunks and results of it are ignored. */
    method FailCall(session: string, agent: string, call: string)
      requires Valid()
      modifies this`entries, this`seen, this`seenOrder, this`spool
      ensures Valid() && entries == WithoutCall(old(entries), session, agent, call)
      ensures Key(session, agent, call, "") in seen
    {
      hide TransfersOK, SeenOK, SpoolOK, PartsOK, ImagesOK, WithoutCall, Sum;
      while exists key :: key in entries && OfCall(key, session, agent, call)
        invariant Valid() && WithoutCall(entries, session, agent, call) == WithoutCall(old(entries), session, agent,
                    call)
        decreases |entries|
      {
        var key :| key in entries && OfCall(key, session, agent, call);
        OneLess(entries, key);
        OneOfCallLess(entries, session, agent, call, key);
        Drop(key);
      }
      NoneOfCall(entries, session, agent, call);
      ghost var before := seen;
      RememberTerminal(Key(session, agent, call, ""));
      Remembered(entries, expected, before, seen, Key(session, agent, call, ""));
    }

    /** Whether every listed image is acceptable, and which of them are new. */
    method Check(p: Summary, session: string) returns (ok: bool, added: set<Key>)
      requires p.images.Some?
      ensures ok <==> forall m <- p.images.value :: AcceptableHere(m, p, session, entries)
      ensures ok ==> added == NewKeys(p, session, entries, seen, p.images.value)
    {
      hide AcceptableResult, NewKeys;
      var listed := p.images.value;
      added := {};
      var i := 0;
      NewKeysOfNothing(p, session, entries, seen);
      assert listed[..0] == [];
      while i < |listed|
        invariant 0 <= i <= |listed|
        invariant forall j :: 0 <= j < i ==> AcceptableHere(listed[j], p, session, entries)
        invariant added == NewKeys(p, session, entries, seen, listed[..i])
      {
        var m := listed[i];
        var key := Key(session, p.agent, p.call, m.reference);
        if !AcceptableResult(m) || (key in entries && entries[key].meta != m) {
          assert !AcceptableHere(listed[i], p, session, entries);
          return false, added;
        }
        if key !in seen && key !in entries {
          added := added + {key};
        }
        NewKeysStep(p, session, entries, seen, listed, i);
        i := i + 1;
      }
      assert listed[..i] == listed;
      ok := true;
    }

    /** A summary is taken as a whole or ends its call; one that repeats a call that
        has ended, or images that have arrived, changes nothing about them. */
    method Result(p: Summary, session: string) returns (error: bool)
      requires Valid()
      modifies this`entries, this`seen, this`seenOrder, this`spool, this`parts
      ensures Valid()
      ensures Key(session, p.agent, p.call, "") in old(seen) ==>
                !error && entries == old(entries) && seen == old(seen) && spool == old(spool)
      ensures Key(session, p.agent, p.call, "") !in old(seen) && Sound(p, session, old(entries), old(seen)) ==>
                && !error && seen == old(seen) && spool == old(spool)
                && entries == Announced(old(entries), NewKeys(p, session, old(entries), old(seen), p.images.value), p,
                                        session, p.images.value)
      ensures Key(session, p.agent, p.call, "") !in old(seen) && !Sound(p, session, old(entries), old(seen)) ==>
                && error == (p.deliveryError || p.success) && Key(session, p.agent, p.call, "") in seen
                && entries == WithoutCall(old(entries), session, p.agent, p.call)
    {
      hide Valid, AcceptableResult, NewKeys, Announced, WithoutCall, OfCall;
      if Key(session, p.agent, p.call, "") in seen {
        return false;
      }
      if p.deliveryError || !p.success {
        FailCall(session, p.agent, p.call);
        return p.deliveryError;
      }
      if p.images.None? || session == "" || p.call == "" || |p.images.value| == 0 || |p.images.value| > MAX_IMAGES {
        FailCall(session, p.agent, p.call);
        return true;
      }
      var ok, added := Check(p, session);
      if !ok || |entries| + |added| > MAX_ENTRIES {
        FailCall(session, p.agent, p.call);
        return true;
      }
      NewKeysAreNew(p, session, entries, seen, p.images.value);
      Announce(p, session, added);
      error := false;
    }

    method Start(key: Key, m: Meta, refetch: bool)
      requires Valid() && Acceptable(m) && key.reference == m.reference && key !in seen
      requires if refetch then key.reference in expected && expected[key.reference] == key else key.call != ""
      requires |entries[key := Entry(m, "", false, refetch)]| <= MAX_ENTRIES
      requires key in entries ==> !entries[key].open
      modifies this`entries, this`parts
      ensures Valid() && entries == old(entries)[key := Entry(m, "", false, refetch)]
    {
      hide Sum, Acceptable, TransfersOK, SeenOK, SpoolOK, PartsOK, ImagesOK;
      NewEntry(entries, expected, seen, key, m, refetch);
      NewEntryIsFree(entries, images, spool, others, parts, key, m, refetch);
      entries := entries[key := Entry(m, "", false, refetch)];
      parts := parts[key := []];
    }

    method Announce(p: Summary, session: string, added: set<Key>)
      requires Valid() && p.images.Some? && p.call != ""
      requires forall m <- p.images.value :: AcceptableResult(m)
      requires added !! seen && added !! entries.Keys && |entries| + |added| <= MAX_ENTRIES
      modifies this`entries, this`parts
      ensures Valid()
      ensures entries == Announced(old(entries), added, p, session, p.images.value)
    {
      hide *;
      var listed := p.images.value;
      var i := 0;
      AnnouncedNothing(entries, added, p, session);
      assert listed[..0] == [];
      AllAcceptable(listed);
      while i < |listed|
        invariant 0 <= i <= |listed| && Valid()
        invariant entries == Announced(old(entries), added, p, session, listed[..i])
        invariant entries.Keys <= old(entries).Keys + added
        invariant forall key <- entries :: key in added ==> entries[key].data == "" && !entries[key].open
      {
        var m := listed[i];
        var key := Key(session, p.agent, p.call, m.reference);
        AnnouncedStep(old(entries), added, p, session, listed, i);
        if key in added {
          assert m in p.images.value;
          StillFew(old(entries), added, entries[key := Entry(m, "", false, false)]);
          Start(key, m, false);
        }
        i := i + 1;
      }
      assert listed[..i] == listed;
    }

    /** The first chunk of an image that was asked for describes the image itself. */
    method Adopt(p: Chunk, key: Key) returns (ok: bool)
      requires Valid() && key !in entries && key !in seen && key.reference == p.reference
      modifies this`entries, this`expected, this`seen, this`seenOrder, this`parts
      ensures Valid()
      ensures ok <==> Adopted(p, key, old(expected), |old(entries)|).Some?
      ensures ok ==> entries == old(entries)[key := Adopted(p, key, old(expected), |old(entries)|).value]
      ensures ok ==> expected == old(expected) && seen == old(seen)
      ensures !ok ==> entries == old(entries) && key in seen && seen <= old(seen) + {key}
                      && expected == Released(old(expected), p, key)
    {
      hide Sum, Acceptable, DigestOf, TransfersOK, SeenOK, SpoolOK, PartsOK, ImagesOK;
      ghost var before := seen;
      if p.reference !in expected || expected[p.reference] != key || p.call != "" || p.agent != "" {
        RememberTerminal(key);
        Remembered(entries, expected, before, seen, key);
        return false;
      }
      var digest := DigestOf(p.reference, p.mime);
      if p.offset != 0 || digest.None? || !Acceptable(MetaOf(p, digest.value)) || |entries| >= MAX_ENTRIES {
        RememberTerminal(key);
        Remembered(entries, expected, before, seen, key);
        Forgotten(entries, expected, seen, p.reference);
        expected := expected - {p.reference};
        return false;
      }
      var m := MetaOf(p, digest.value);
      Start(key, m, true);
      ok := true;
    }

    /** The transfer fails: nothing of it is left and its identity is terminal. */
    method Fail(key: Key)
      requires Valid() && key in entries
      modifies this`entries, this`expected, this`seen, this`seenOrder, this`spool
      ensures Valid() && entries == old(entries) - {key} && key in seen && seen <= old(seen) + {key}
      ensures spool == old(spool) - FileBytes(old(entries[key]))
      ensures expected == if old(entries[key]).refetch then old(expected) - {key.reference} else old(expected)
    {
      hide Sum, TransfersOK, SeenOK, SpoolOK, PartsOK, ImagesOK;
      var refetch := entries[key].refetch;
      OnlyOneAsked(entries, expected, seen, key);
      End(key);
      if refetch {
        Forgotten(entries, expected, seen, key.reference);
        expected := expected - {key.reference};
      }
    }

    /** The whole size is reserved before the file is created. */
    method Reserve(key: Key, created: bool) returns (ok: bool)
      requires Valid() && key in entries && !entries[key].open
      modifies this`entries, this`spool
      ensures Valid()
      ensures ok <==> old(spool) + old(entries[key]).meta.size <= MAX_SPOOL && created
      ensures ok ==> entries == old(entries)[key := Entry(old(entries[key]).meta, "", true, old(entries[key]).refetch)]
      ensures ok ==> spool == old(spool) + old(entries[key]).meta.size
      ensures !ok ==> entries == old(entries) && spool == old(spool)
    {
      hide Sum, Assembled, TransfersOK, SeenOK, SpoolOK, PartsOK, ImagesOK;
      var e := entries[key];
      ok := false;
      if spool + e.meta.size > MAX_SPOOL {
        return;
      }
      if !created {
        return;
      }
      Opened(entries, expected, seen, key);
      OpenedBytes(entries, images, spool, others, parts, key);
      spool := spool + e.meta.size;
      entries := entries[key := Entry(e.meta, "", true, e.refetch)];
      ok := true;
    }

    method Keep(p: Chunk, key: Key)
      requires Valid() && key in entries && entries[key].open && !p.last
      requires Continues(p, entries[key].meta, entries[key].data)
      requires |entries[key].data| + |p.data.value| < entries[key].meta.size
      modifies this`entries, this`parts
      ensures Valid() && entries == old(entries)[key := Extended(old(entries[key]), p)]
    {
      hide Sum, Assembled, TransfersOK, SeenOK, SpoolOK, PartsOK, ImagesOK;
      Grown(entries, expected, seen, key, p);
      GrownBytes(entries, images, spool, others, parts, key, p);
      parts := parts[key := parts[key] + [p]];
      entries := entries[key := Extended(entries[key], p)];
    }

    /** The assembled image leaves the transfers; its bytes stay reserved. */
    method MoveOut(p: Chunk, key: Key) returns (n: nat)
      requires Valid() && key in entries && entries[key].open && p.last
      requires Continues(p, entries[key].meta, entries[key].data)
      requires var e := Extended(entries[key], p); |e.data| == e.meta.size && sha(e.data) == e.meta.sha256
      modifies this`entries, this`images, this`next, this`parts, this`sources
      ensures Valid() && n !in old(images) && entries == old(entries) - {key}
      ensures images == old(images)[n := Image(key, old(entries[key]).meta, Extended(old(entries[key]), p).data)]
    {
      hide TransfersOK, SeenOK, SpoolOK, PartsOK, ImagesOK, Acceptable;
      n := next;
      var e := entries[key];
      var image := Image(key, e.meta, Extended(e, p).data);
      OnlyOneAsked(entries, expected, seen, key);
      Dropped(entries, expected, seen, key);
      WasDelivered(entries, parts, sha, images, sources, next, key, p);
      DeliveredBytes(entries, images, spool, others, key, image, n, parts);
      images, sources, next := images[n := image], sources[n := parts[key] + [p]], next + 1;
      entries := entries - {key};
    }

    /** The image leaves the receiver and cannot arrive a second time. */
    method Deliver(p: Chunk, key: Key) returns (n: nat)
      requires Valid() && key in entries && entries[key].open && p.last
      requires Continues(p, entries[key].meta, entries[key].data)
      requires var e := Extended(entries[key], p); |e.data| == e.meta.size && sha(e.data) == e.meta.sha256
      modifies this`entries, this`expected, this`seen, this`seenOrder, this`images, this`next, this`parts, this`sources
      ensures Valid() && n !in old(images) && entries == old(entries) - {key}
      ensures key in seen && seen <= old(seen) + EndedBy(Delivered, old(entries[key]), key)
      ensures images == old(images)[n := Image(key, old(entries[key]).meta, Extended(old(entries[key]), p).data)]
      ensures expected == if old(entries[key]).refetch then old(expected) - {key.reference} else old(expected)
    {
      hide TransfersOK, SeenOK, SpoolOK, PartsOK, ImagesOK, Acceptable, Continues, Extended;
      var refetch := entries[key].refetch;
      OnlyOneAsked(entries, expected, seen, key);
      n := MoveOut(p, key);
      if refetch {
        Forgotten(entries, expected, seen, key.reference);
        expected := expected - {key.reference};
      }
      ghost var before := seen;
      RememberTerminal(key);
      Remembered(entries, expected, before, seen, key);
      if refetch {
        NotLive(entries, expected, seen, key.reference, Key(key.session, "", "", key.reference));
        before := seen;
        NewestIsNotOldest(seen, seenOrder);
        RememberTerminal(Key(key.session, "", "", key.reference));
        Remembered(entries, expected, before, seen, Key(key.session, "", "", key.reference));
      }
    }

    /** The chunk is stored and ends the transfer, or lets it go on, or fails it. */
    method Continue(p: Chunk, key: Key, disk: Disk) returns (outcome: Outcome, n: nat)
      requires Valid() && key in entries
      modifies this`entries, this`expected, this`seen, this`seenOrder, this`spool, this`images, this`next, this`parts,
        this`sources
      ensures Valid() && outcome == Judged(old(entries[key]), p, old(spool), disk, sha)
      ensures After(outcome, n, old(entries[key]), p, key, old(entries), entries, old(expected), expected,
                    old(images), images)
      ensures outcome.Kept? ==> seen == old(seen)
      ensures !outcome.Kept? ==> key in seen && seen <= old(seen) + EndedBy(outcome, old(entries[key]), key)
      ensures spool == old(spool) + Reserved(outcome, old(entries[key]))
    {
      hide Sum, Assembled, TransfersOK, SeenOK, SpoolOK, PartsOK, ImagesOK, Acceptable, Valid;
      n := 0;
      var e := entries[key];
      if !Continues(p, e.meta, e.data) {
        Fail(key);
        return Failed, n;
      }
      if !e.open {
        EmptyBeforeOpen(key);
        var ok := Reserve(key, disk.created);
        if !ok {
          Fail(key);
          return Failed, n;
        }
      }
      if !disk.written {
        Fail(key);
        return Failed, n;
      }
      var data := e.data + p.data.value;
      if !p.last {
        if |data| == e.meta.size {
          Fail(key);
          return Failed, n;
        }
        Keep(p, key);
        return Kept, n;
      }
      if |data| != e.meta.size || sha(data) != e.meta.sha256 || !disk.closed {
        Fail(key);
        return Failed, n;
      }
      n := Deliver(p, key);
      outcome := Delivered;
    }

    lemma EmptyBeforeOpen(key: Key)
      requires Valid() && key in entries && !entries[key].open
      ensures entries[key].data == ""
    {
      hide SeenOK, SpoolOK, PartsOK, ImagesOK, Acceptable;
    }

    /** One chunk: the identities that are terminal ignore it, a transfer takes it
        exactly if it continues the image and the spool and the disk allow it, and an
        image is delivered exactly if this chunk completes it with the right digest. */
    method Accept(p: Chunk, session: string, disk: Disk) returns (outcome: Outcome, n: nat)
      requires Valid()
      modifies this`entries, this`expected, this`seen, this`seenOrder, this`spool, this`images, this`next, this`parts,
        this`sources
      ensures Valid()
      ensures Accepts(sha, old(Now()), p, session, disk, outcome, n, Now())
    {
      hide Valid, Judged, DigestOf, Acceptable, Continues, Released, After, EndedBy, Reserved, Adopted;
      n := 0;
      var key := KeyOf(p, session);
      if key in seen || Ender(p, session) in seen {
        return Ignored, n;
      }
      if key !in entries {
        var ok := Adopt(p, key);
        if !ok {
          return Failed, n;
        }
      }
      ghost var e := entries[key];
      outcome, n := Continue(p, key, disk);
      if key !in old(entries) {
        AfterAdoption(outcome, n, e, p, key, old(entries), Now(), old(expected), old(images));
      }
    }
  }
}
