/** The durable guards of session transfers (internal/gateway/session_transfers.go).

    A file is written by syncing a temporary file and renaming it into place
    (internal/gateway/transfer_persistence.go:13-44), so it never holds a mixture
    of two contents. What is uncertain is which content is there after a crash:
    a file is modelled as the set of contents it may then have.
  */
module SessionTransfers {

  datatype Option<+T> = None | Some(value: T)

  /** `details` stands for the remaining fields of the status, which are only copied. */
  datatype Transfer = Transfer(
    transferID: string, sessionID: string, startedAt: string, waitExpired: bool,
    interrupted: bool, direction: string, bindingInstanceID: string, details: string)

  type Guards = map<string, Transfer>

  datatype Content = Missing | Garbled | Stored(records: Guards)
  datatype Loaded = Refused | Recovered(entries: Guards)

  predicate WellFormed(t: Transfer) {
    t.sessionID != "" && t.transferID != ""
  }

  /** readSessionTransferRecords */
  function ReadRecords(c: Content): Loaded {
    match c
    case Missing => Recovered(map[])
    case Garbled => Refused
    case Stored(records) =>
      if forall key <- records :: WellFormed(records[key]) then Recovered(records) else Refused
  }

  /** What Load makes of the two files. A current guard wins over the deletion journal. */
  function LoadFrom(primary: Content, journal: Content): Loaded {
    var current := ReadRecords(primary);
    var previous := ReadRecords(journal);
    if current.Refused? || previous.Refused? then Refused
    else Recovered(previous.entries + current.entries)
  }

  /** The contents each file may turn out to have after a crash. */
  datatype Disk = Disk(primary: set<Content>, journal: set<Content>)

  /** A write that fails did nothing, or replaced the file without being durable. */
  datatype WriteOutcome = Synced | NotReplaced | MaybeReplaced
  datatype RemoveOutcome = Removed | NotThere | RemoveFailed

  function AfterWrite(before: set<Content>, content: Content, outcome: WriteOutcome): set<Content> {
    match outcome
    case Synced => {content}
    case NotReplaced => before
    case MaybeReplaced => before + {content}
  }

  datatype Outcomes = Outcomes(journalWrite: WriteOutcome, primaryWrite: WriteOutcome, removal: RemoveOutcome,
                               cleanupSynced: bool)

  datatype Store = Store(entries: Guards, failed: bool, uncertain: bool, disk: Disk) {
    /** Blocked: a guard, or storage that could not be read, stops the binding. */
    predicate Blocks(key: string) {
      key in entries || failed
    }
  }

  datatype Answer = Committed | StorageUnavailable | Stale | Busy | NotPersisted

  /** The value a commit stores, built from the one it replaces. */
  function Normalized(prior: Option<Transfer>, v: Transfer, inherit: bool): Transfer {
    var kept :=
      if inherit && prior.Some? then
        v.(interrupted := v.interrupted || prior.value.interrupted,
           startedAt := if prior.value.startedAt != "" then prior.value.startedAt else v.startedAt)
      else v;
    kept.(waitExpired := false)
  }

  function Lookup(entries: Guards, key: string): Option<Transfer> {
    if key in entries then Some(entries[key]) else None
  }

  datatype Op =
    | Commit(key: string, value: Option<Transfer>, expectedID: string, inherit: bool, outcomes: Outcomes)
    | FailClosed
    | Crash(primary: Content, journal: Content)
    | Restart(primary: Content, journal: Content)

  /** Why a commit does not even try. */
  function Refusal(s: Store, key: string, expectedID: string): Option<Answer> {
    if s.failed then Some(StorageUnavailable)
    else if expectedID != "" && (key !in s.entries || s.entries[key].transferID != expectedID) then Some(Stale)
    else if expectedID == "" && key in s.entries then Some(Busy)
    else None
  }

  /** The in-memory guards if the commit succeeds. */
  function Next(s: Store, op: Op): Guards
    requires op.Commit?
  {
    if op.value.None? then s.entries - {op.key}
    else s.entries[op.key := Normalized(Lookup(s.entries, op.key), op.value.value, op.inherit)]
  }

  predicate NothingToWrite(s: Store, op: Op)
    requires op.Commit?
  {
    op.value.Some? && op.key in s.entries && !s.uncertain && Next(s, op) == s.entries
  }

  /** The disk after each step of a commit that writes, in order. A crash in the
      middle of a write leaves what a MaybeReplaced write leaves. */
  function DiskTrail(s: Store, op: Op): (trail: seq<Disk>)
    requires op.Commit?
    ensures |trail| >= 1
  {
    var next := Stored(Next(s, op));
    var o := op.outcomes;
    var journaled :=
      if op.value.None? then s.disk.(journal := AfterWrite(s.disk.journal, Stored(s.entries), o.journalWrite))
        else s.disk;
    var written := journaled.(primary := AfterWrite(journaled.primary, next, o.primaryWrite));
    var unlinked := written.(journal := written.journal + {Missing});
    if op.value.None? && o.journalWrite != Synced then [journaled]
    else if op.value.Some? || o.primaryWrite != Synced || o.removal == RemoveFailed then [journaled, written]
    else if o.cleanupSynced then [journaled, written, unlinked, written.(journal := {Missing})]
    else [journaled, written, unlinked]
  }

  /** Every write the commit needed was made. */
  predicate Persisted(op: Op)
    requires op.Commit?
  {
    && op.outcomes.primaryWrite == Synced
    && (op.value.None? ==> op.outcomes.journalWrite == Synced && op.outcomes.removal != RemoveFailed)
  }

  /** Load, with empty memory. */
  function Loading(primary: Content, journal: Content, disk: Disk): Store {
    match LoadFrom(primary, journal)
    case Refused => Store(map[], true, false, disk)
    case Recovered(entries) => Store(entries, false, false, disk)
  }

  function Step(s: Store, op: Op): (Store, Answer) {
    match op
    case FailClosed => (s.(failed := true), Committed)
    case Crash(primary, journal) =>
      // A new process loads what the crash left, and only that is left.
      (Loading(primary, journal, Disk({primary}, {journal})), Committed)
    case Restart(primary, journal) =>
      // A new process reads the files, but what a later crash leaves is open as before.
      (Loading(primary, journal, s.disk), Committed)
    case Commit(key, value, expectedID, inherit, outcomes) =>
      if Refusal(s, key, expectedID).Some? then (s, Refusal(s, key, expectedID).value)
      else if NothingToWrite(s, op) then (s, Committed)
      else
        var trail := DiskTrail(s, op);
        var disk := trail[|trail| - 1];
        if Persisted(op) then (Store(Next(s, op), false, false, disk), Committed)
        else (Store(s.entries, false, true, disk), NotPersisted)
  }

  /** A new process can only read contents that were possible. */
  predicate Possible(s: Store, op: Op) {
    op.Crash? || op.Restart? ==> op.primary in s.disk.primary && op.journal in s.disk.journal
  }

  /** There are files, possibly missing ones. */
  predicate Present(disk: Disk) {
    disk.primary != {} && disk.journal != {}
  }

  ghost predicate StillBlocked(loaded: Loaded, key: string) {
    loaded.Refused? || key in loaded.entries
  }

  /** Whatever a crash leaves of this disk, the guard is there again after Load. */
  ghost predicate Durable(disk: Disk, key: string) {
    forall p, j :: p in disk.primary && j in disk.journal ==> StillBlocked(LoadFrom(p, j), key)
  }

  ghost predicate Guarded(s: Store, key: string) {
    s.Blocks(key) && Durable(s.disk, key)
  }

  /** Whatever a crash leaves, Load restores these guards with these values, or refuses. */
  ghost predicate Restores(disk: Disk, entries: Guards) {
    forall p, j, key :: p in disk.primary && j in disk.journal && key in entries && LoadFrom(p, j).Recovered? ==>
      var loaded := LoadFrom(p, j).entries;
      key in loaded && loaded[key] == entries[key]
  }

  ghost predicate Inv(s: Store) {
    && Present(s.disk)
    && (forall key <- s.entries :: Durable(s.disk, key))
    && (!s.uncertain && !s.failed ==> Restores(s.disk, s.entries))
  }

  /** The commit names the transfer that guards its key, or there is no guard and it names none. */
  predicate Names(s: Store, op: Op)
    requires op.Commit?
  {
    if op.expectedID == "" then op.key !in s.entries
    else op.key in s.entries && s.entries[op.key].transferID == op.expectedID
  }

  /** A deletion that names the guard's own transfer and whose writes are all made. */
  predicate Deletes(s: Store, op: Op, key: string) {
    && op.Commit? && op.key == key && op.value.None? && Persisted(op) && !s.failed
    && op.expectedID != "" && key in s.entries && s.entries[key].transferID == op.expectedID
  }

  /** What a commit stores under its key, from the value it is given and the guard it replaces:
      the value itself, except that an update keeps an interruption and the first start. */
  ghost predicate Stores(prior: Option<Transfer>, v: Transfer, inherit: bool, stored: Transfer) {
    && stored == v.(interrupted := stored.interrupted, startedAt := stored.startedAt, waitExpired := false)
    && (stored.interrupted <==> v.interrupted || (inherit && prior.Some? && prior.value.interrupted))
    && stored.startedAt ==
       if inherit && prior.Some? && prior.value.startedAt != "" then prior.value.startedAt else v.startedAt
  }

  /** Which answer a commit gets, and what it does to memory. */
  lemma CommitAnswers(s: Store, op: Op)
    requires op.Commit?
    ensures var (s', answer) := Step(s, op);
            && (s.failed ==> answer == StorageUnavailable && s' == s)
            && (!s.failed && op.expectedID != "" && !Names(s, op) ==> answer == Stale && s' == s)
            && (!s.failed && op.expectedID == "" && !Names(s, op) ==> answer == Busy && s' == s)
            && (!s.failed && Names(s, op) ==> answer == Committed || answer == NotPersisted)
            && (!s.failed && Names(s, op) ==>
                  (answer == Committed <==>
                     || Persisted(op)
                     || (op.value.Some? && op.key in s.entries && !s.uncertain
                         && Stores(Some(s.entries[op.key]), op.value.value, op.inherit, s.entries[op.key]))))
            && (answer == NotPersisted ==> !Persisted(op) && s'.entries == s.entries && s'.uncertain)
            && (answer == Committed ==> Persisted(op) || s' == s)
            && (answer == Committed && op.value.None? ==> s'.entries == s.entries - {op.key})
            && (answer == Committed && op.value.Some? ==>
                  && s'.entries.Keys == s.entries.Keys + {op.key}
                  && (forall key <- s.entries :: key != op.key ==> s'.entries[key] == s.entries[key])
                  && Stores(Lookup(s.entries, op.key), op.value.value, op.inherit, s'.entries[op.key]))
  {
    hide DiskTrail;
    if op.value.Some? && op.key in s.entries {
      var prior, stored := s.entries[op.key], Normalized(Some(s.entries[op.key]), op.value.value, op.inherit);
      assert Stores(Some(prior), op.value.value, op.inherit, prior) <==> stored == prior;
      assert Next(s, op) == s.entries <==> Next(s, op)[op.key] == prior;
    }
  }

  /** A write of guards that include `key` never endangers it. */
  lemma WriteKeeps(disk: Disk, key: string, entries: Guards, outcome: WriteOutcome)
    requires Durable(disk, key) && key in entries
    ensures Durable(disk.(primary := AfterWrite(disk.primary, Stored(entries), outcome)), key)
    ensures Durable(disk.(journal := AfterWrite(disk.journal, Stored(entries), outcome)), key)
  {
  }

  /** At every crash point inside a commit, every guard in memory that was durable
      still is, except that the one being deleted is given up with the journal. */
  lemma TrailKeeps(s: Store, op: Op, key: string, i: nat)
    requires Durable(s.disk, key) && op.Commit? && key in s.entries
    requires i < |DiskTrail(s, op)|
    requires op.value.None? && op.key == key ==> i <= 1
    ensures Durable(DiskTrail(s, op)[i], key)
  {
    var o := op.outcomes;
    var journaled :=
      if op.value.None? then s.disk.(journal := AfterWrite(s.disk.journal, Stored(s.entries), o.journalWrite))
        else s.disk;
    WriteKeeps(s.disk, key, s.entries, o.journalWrite);
    assert Durable(journaled, key);
    if op.value.None? && op.key == key {
      if o.journalWrite == Synced {
        assert journaled.journal == {Stored(s.entries)};
      }
    } else {
      WriteKeeps(journaled, key, Next(s, op), o.primaryWrite);
      if i > 1 {
        assert DiskTrail(s, op)[i].primary == {Stored(Next(s, op))};
      }
    }
  }

  /** A guard stays, in memory and on disk, through every step but its own deletion. */
  lemma StepGuards(s: Store, op: Op, key: string)
    requires Possible(s, op) && Guarded(s, key) && !Deletes(s, op, key)
    ensures Guarded(Step(s, op).0, key)
  {
    if op.Commit? && Refusal(s, op.key, op.expectedID).None? && !NothingToWrite(s, op) {
      var trail := DiskTrail(s, op);
      TrailKeeps(s, op, key, |trail| - 1);
    }
  }

  lemma CommitRestores(s: Store, op: Op)
    requires op.Commit? && Persisted(op)
    ensures var trail := DiskTrail(s, op); Restores(trail[|trail| - 1], Next(s, op))
  {
    var trail := DiskTrail(s, op);
    assert trail[|trail| - 1].primary == {Stored(Next(s, op))};
  }

  lemma StepInv(s: Store, op: Op)
    requires Inv(s) && Possible(s, op) && !op.Restart?
    ensures Inv(Step(s, op).0)
  {
    var s' := Step(s, op).0;
    forall key | key in s'.entries
      ensures Durable(s'.disk, key)
    {
      if key in s.entries && !Deletes(s, op, key) {
        StepGuards(s, op, key);
      } else if op.Commit? {
        assert s'.disk.primary == {Stored(s'.entries)};
      }
    }
    if op.Commit? && Refusal(s, op.key, op.expectedID).None? && !NothingToWrite(s, op) && Persisted(op) {
      CommitRestores(s, op);
    }
  }

  /** A new, empty store over files with any contents. */
  function Fresh(primary: Content, journal: Content): Store {
    Step(Store(map[], false, false, Disk({primary}, {journal})), Crash(primary, journal)).0
  }

  function Run(s: Store, ops: seq<Op>): Store
    decreases |ops|
  {
    if ops == [] then s else Run(Step(s, ops[0]).0, ops[1..])
  }

  ghost predicate RunPossible(s: Store, ops: seq<Op>)
    decreases |ops|
  {
    ops == [] || (Possible(s, ops[0]) && RunPossible(Step(s, ops[0]).0, ops[1..]))
  }

  ghost predicate RunDeletes(s: Store, ops: seq<Op>, key: string)
    decreases |ops|
  {
    ops != [] && (Deletes(s, ops[0], key) || RunDeletes(Step(s, ops[0]).0, ops[1..], key))
  }

  predicate NoRestart(ops: seq<Op>) {
    forall op <- ops :: !op.Restart?
  }

  /** While the process does not restart, every guard in memory is durable. */
  lemma {:induction false} RunInv(s: Store, ops: seq<Op>)
    requires Inv(s) && RunPossible(s, ops) && NoRestart(ops)
    ensures Inv(Run(s, ops))
    decreases |ops|
  {
    if ops != [] {
      StepInv(s, ops[0]);
      RunInv(Step(s, ops[0]).0, ops[1..]);
    }
  }

  /** No guard is ever lost. Over any run of commits, crashes and restarts, with
      any writes failing or left uncertain, a binding that is blocked and durably so
      stays blocked, and would be after yet another crash, until a deletion that names
      its guard's own transfer has made all its writes. */
  lemma {:induction false} NoGuardLost(s: Store, ops: seq<Op>, key: string)
    requires RunPossible(s, ops) && Guarded(s, key) && !RunDeletes(s, ops, key)
    ensures Guarded(Run(s, ops), key)
    decreases |ops|
  {
    if ops != [] {
      StepGuards(s, ops[0], key);
      NoGuardLost(Step(s, ops[0]).0, ops[1..], key);
    }
  }

  // Whose guard it is

  /** This content guards the key with this transfer if it guards it at all. */
  predicate NoOther(c: Content, key: string, id: string) {
    ReadRecords(c).Refused? || key !in ReadRecords(c).entries || ReadRecords(c).entries[key].transferID == id
  }

  predicate HasOwn(c: Content, key: string, id: string) {
    ReadRecords(c).Refused? || (key in ReadRecords(c).entries && ReadRecords(c).entries[key].transferID == id)
  }

  /** The binding is blocked by this transfer, in memory and in whatever a crash leaves. */
  ghost predicate HeldBy(s: Store, key: string, id: string) {
    && (s.failed || (key in s.entries && s.entries[key].transferID == id))
    && (forall p <- s.disk.primary :: NoOther(p, key, id))
    && ((forall p <- s.disk.primary :: HasOwn(p, key, id)) || (forall j <- s.disk.journal :: HasOwn(j, key, id)))
  }

  predicate NamesTransfer(op: Op, key: string, id: string) {
    op.Commit? && op.key == key && op.expectedID == id && id != ""
  }

  lemma HeldMeaning(s: Store, key: string, id: string, p: Content, j: Content)
    requires HeldBy(s, key, id) && p in s.disk.primary && j in s.disk.journal
    ensures LoadFrom(p, j).Refused?
            || (key in LoadFrom(p, j).entries && LoadFrom(p, j).entries[key].transferID == id)
  {
  }

  lemma StoredHasOwn(entries: Guards, key: string, id: string)
    requires key in entries && entries[key].transferID == id
    ensures HasOwn(Stored(entries), key, id) && NoOther(Stored(entries), key, id)
  {
  }

  lemma NextHasOwn(s: Store, op: Op, key: string, id: string)
    requires op.Commit? && !s.failed && HeldBy(s, key, id) && Step(s, op).1 != Stale && Step(s, op).1 != Busy
    requires !NamesTransfer(op, key, id)
    ensures key in s.entries && op.key != key
    ensures key in Next(s, op) && Next(s, op)[key].transferID == id
  {
    CommitAnswers(s, op);
  }

  /** A guard is replaced or deleted only by a commit that names its own transfer. */
  lemma HeldStep(s: Store, op: Op, key: string, id: string)
    requires Possible(s, op) && HeldBy(s, key, id) && !NamesTransfer(op, key, id)
    ensures HeldBy(Step(s, op).0, key, id)
  {
    if op.Crash? || op.Restart? {
      HeldMeaning(s, key, id, op.primary, op.journal);
    } else if op.Commit? && Refusal(s, op.key, op.expectedID).None? && !NothingToWrite(s, op) {
      HeldCommit(s, op, key, id);
    }
  }

  lemma HeldCommit(s: Store, op: Op, key: string, id: string)
    requires op.Commit? && HeldBy(s, key, id) && !NamesTransfer(op, key, id)
    requires Refusal(s, op.key, op.expectedID).None? && !NothingToWrite(s, op)
    ensures HeldBy(Step(s, op).0, key, id)
  {
    hide NoOther, HasOwn;
    NextHasOwn(s, op, key, id);
    StoredHasOwn(s.entries, key, id);
    StoredHasOwn(Next(s, op), key, id);
  }

  lemma {:induction false} OnlyOwnCommits(s: Store, ops: seq<Op>, key: string, id: string)
    requires RunPossible(s, ops) && HeldBy(s, key, id) && forall op <- ops :: !NamesTransfer(op, key, id)
    ensures HeldBy(Run(s, ops), key, id)
    decreases |ops|
  {
    hide HeldBy;
    if ops != [] {
      HeldStep(s, ops[0], key, id);
      OnlyOwnCommits(Step(s, ops[0]).0, ops[1..], key, id);
    }
  }

  lemma FreshInv(primary: Content, journal: Content)
    ensures Inv(Fresh(primary, journal))
  {
  }

  /** Load can be refused although every write succeeded: a guard without a
      session is written as it is and rejected when read. */
  lemma EmptySessionIsRefused()
    ensures exists s: Store, op: Op ::
      && Inv(s) && op.Commit? && Step(s, op).1 == Committed
      && forall p, j :: p in Step(s, op).0.disk.primary && j in Step(s, op).0.disk.journal ==> LoadFrom(p, j).Refused?
  {
    var s := Fresh(Missing, Missing);
    var t := Transfer("t1", "", "", false, false, "outgoing", "", "");
    var op := Commit("k", Some(t), "", true, Outcomes(Synced, Synced, Removed, true));
    FreshInv(Missing, Missing);
    var s' := Step(s, op).0;
    assert s'.entries == map["k" := t];
    forall p, j | p in s'.disk.primary && j in s'.disk.journal
      ensures LoadFrom(p, j).Refused?
    {
      assert p == Stored(s'.entries);
      assert !WellFormed(s'.entries["k"]);
    }
  }

  predicate AllWellFormed(entries: Guards) {
    forall key <- entries :: WellFormed(entries[key])
  }

  predicate Readable(contents: set<Content>) {
    forall c <- contents :: ReadRecords(c).Recovered?
  }

  /** Whatever a crash leaves, Load restores all of these guards with these values. */
  ghost predicate AllRestored(disk: Disk, entries: Guards) {
    forall p <- disk.primary, j <- disk.journal ::
      LoadFrom(p, j).Recovered? && forall key <- entries ::
        key in LoadFrom(p, j).entries && LoadFrom(p, j).entries[key] == entries[key]
  }

  predicate HasValue(c: Content, key: string, t: Transfer) {
    c.Stored? && key in c.records && c.records[key] == t
  }

  predicate Lacks(c: Content, key: string) {
    c.Stored? ==> key !in c.records
  }

  /** The same, file by file: the current file never has another value, and one of the
      two files has this one in all its possible contents. */
  ghost predicate Settled(disk: Disk, entries: Guards) {
    && Readable(disk.primary) && Readable(disk.journal)
    && forall key <- entries ::
         && (forall p <- disk.primary :: Lacks(p, key) || HasValue(p, key, entries[key]))
         && ((forall p <- disk.primary :: HasValue(p, key, entries[key]))
             || (forall j <- disk.journal :: HasValue(j, key, entries[key])))
  }

  lemma RestoredMeaning(disk: Disk, entries: Guards)
    requires Present(disk)
    ensures AllRestored(disk, entries) <==> Settled(disk, entries)
  {
    if AllRestored(disk, entries) {
      var p0 :| p0 in disk.primary;
      var j0 :| j0 in disk.journal;
      assert forall p <- disk.primary :: LoadFrom(p, j0).Recovered?;
      assert forall j <- disk.journal :: LoadFrom(p0, j).Recovered?;
      forall key | key in entries
        ensures forall p <- disk.primary :: Lacks(p, key) || HasValue(p, key, entries[key])
        ensures (forall p <- disk.primary :: HasValue(p, key, entries[key]))
                || (forall j <- disk.journal :: HasValue(j, key, entries[key]))
      {
        RestoredKey(disk, entries, key);
      }
    }
  }

  lemma RestoredKey(disk: Disk, entries: Guards, key: string)
    requires Present(disk) && AllRestored(disk, entries) && key in entries
    ensures forall p <- disk.primary :: Lacks(p, key) || HasValue(p, key, entries[key])
    ensures (forall p <- disk.primary :: HasValue(p, key, entries[key]))
            || (forall j <- disk.journal :: HasValue(j, key, entries[key]))
  {
    var j0 :| j0 in disk.journal;
    forall p | p in disk.primary
      ensures Lacks(p, key) || HasValue(p, key, entries[key])
    {
      assert LoadFrom(p, j0).entries[key] == entries[key];
    }
    if p :| p in disk.primary && Lacks(p, key) {
      forall j | j in disk.journal
        ensures HasValue(j, key, entries[key])
      {
        assert LoadFrom(p, j).entries[key] == entries[key];
      }
    }
  }

  /** When a commit that reports success leaves files from which Load restores every
      guard, whatever a crash makes of them, in terms of what was there before the call.
      A commit that writes needs records that name a session and a transfer: those it
      writes, the journal a change leaves alone, and the old ones if the cleanup of a
      deletion is not durable. One that writes nothing needs files that were settled,
      which they need not be after a restart. */
  lemma CommitRestoresExactly(s: Store, op: Op)
    requires Present(s.disk) && op.Commit? && Step(s, op).1 == Committed
    ensures AllRestored(Step(s, op).0.disk, Step(s, op).0.entries) <==>
            if NothingToWrite(s, op) then Settled(s.disk, s.entries)
            else
              && AllWellFormed(Next(s, op))
              && (op.value.Some? ==> Readable(s.disk.journal))
              && (op.value.None? && !op.outcomes.cleanupSynced ==> AllWellFormed(s.entries))
  {
    var s' := Step(s, op).0;
    if NothingToWrite(s, op) {
      RestoredMeaning(s.disk, s.entries);
    } else {
      var next := Stored(Next(s, op));
      assert s'.disk.primary == {next};
      if op.value.None? {
        assert s'.disk.journal == if op.outcomes.cleanupSynced then {Missing} else {Stored(s.entries), Missing};
      }
      RestoredMeaning(s'.disk, s'.entries);
      assert forall key <- s'.entries :: HasValue(next, key, s'.entries[key]);
    }
  }

  /** While the process has not restarted and the files can be read, success means
      that every guard is restored unless a record without a session or a transfer was
      written, or deleted with a cleanup that is not durable. */
  lemma CommitIsRestored(s: Store, op: Op)
    requires Inv(s) && Readable(s.disk.primary) && Readable(s.disk.journal)
    requires op.Commit? && Step(s, op).1 == Committed
    ensures AllRestored(Step(s, op).0.disk, Step(s, op).0.entries) <==>
            || NothingToWrite(s, op)
            || (AllWellFormed(Next(s, op)) && (op.value.None? && !op.outcomes.cleanupSynced ==>
                                               AllWellFormed(s.entries)))
  {
    CommitRestoresExactly(s, op);
    if NothingToWrite(s, op) {
      assert AllRestored(s.disk, s.entries);
      RestoredMeaning(s.disk, s.entries);
    }
  }

  predicate NamesAll(op: Op) {
    op.Commit? && op.value.Some? ==> WellFormed(op.value.value)
  }

  lemma StepReadable(s: Store, op: Op)
    requires Present(s.disk) && Readable(s.disk.primary) && Readable(s.disk.journal) && AllWellFormed(s.entries)
    requires Possible(s, op) && NamesAll(op)
    ensures var s' := Step(s, op).0;
            Present(s'.disk) && Readable(s'.disk.primary) && Readable(s'.disk.journal) && AllWellFormed(s'.entries)
  {
    if op.Commit? {
      assert AllWellFormed(Next(s, op));
      assert ReadRecords(Stored(Next(s, op))).Recovered? && ReadRecords(Stored(s.entries)).Recovered?;
      var trail := DiskTrail(s, op);
      assert Readable(trail[|trail| - 1].primary) && Readable(trail[|trail| - 1].journal);
    }
  }

  /** If every transfer handed to the store names a session and a transfer, the files
      can always be read, through failed writes, crashes and restarts. */
  lemma {:induction false} RunReadable(s: Store, ops: seq<Op>)
    requires Present(s.disk) && Readable(s.disk.primary) && Readable(s.disk.journal) && AllWellFormed(s.entries)
    requires RunPossible(s, ops) && forall op <- ops :: NamesAll(op)
    ensures var s' := Run(s, ops);
            Present(s'.disk) && Readable(s'.disk.primary) && Readable(s'.disk.journal) && AllWellFormed(s'.entries)
    decreases |ops|
  {
    if ops != [] {
      StepReadable(s, ops[0]);
      RunReadable(Step(s, ops[0]).0, ops[1..]);
    }
  }

  /** So over any such run, crashes and restarts included, a commit that reports success
      is restored in full if and only if it wrote, or the files it found were settled. */
  lemma NamedCommitsExactly(primary: Content, journal: Content, ops: seq<Op>, op: Op)
    requires ReadRecords(primary).Recovered? && ReadRecords(journal).Recovered?
    requires RunPossible(Fresh(primary, journal), ops) && forall x <- ops + [op] :: NamesAll(x)
    requires op.Commit? && Step(Run(Fresh(primary, journal), ops), op).1 == Committed
    ensures var s := Run(Fresh(primary, journal), ops);
            var s' := Step(s, op).0;
            AllRestored(s'.disk, s'.entries) <==> (NothingToWrite(s, op) ==> Settled(s.disk, s.entries))
  {
    assert forall x <- ops :: x in ops + [op];
    RunReadable(Fresh(primary, journal), ops);
    var s := Run(Fresh(primary, journal), ops);
    assert op in ops + [op];
    assert AllWellFormed(Next(s, op));
    CommitRestoresExactly(s, op);
  }

  /** A commit that gets as far as writing, whether or not it succeeds. */
  predicate Writes(s: Store, op: Op) {
    op.Commit? && Refusal(s, op.key, op.expectedID).None? && !NothingToWrite(s, op)
  }

  /** Whether the process was restarted during the run, without a crash, and has not
      written since. */
  predicate OnlyRestarted(s: Store, ops: seq<Op>, before: bool)
    decreases |ops|
  {
    if ops == [] then before
    else
      OnlyRestarted(Step(s, ops[0]).0, ops[1..],
                    ops[0].Restart? || (before && !ops[0].Crash? && !Writes(s, ops[0])))
  }

  /** What is in memory is restored, or the next commit writes. */
  ghost predicate Sound(s: Store) {
    && Present(s.disk) && Readable(s.disk.primary) && Readable(s.disk.journal) && AllWellFormed(s.entries)
    && (!s.uncertain && !s.failed ==> AllRestored(s.disk, s.entries))
  }

  /** Writing makes the state sound whatever it was before; only a restart does not
      keep it sound. */
  lemma StepSound(s: Store, op: Op)
    requires Present(s.disk) && Readable(s.disk.primary) && Readable(s.disk.journal) && AllWellFormed(s.entries)
    requires Possible(s, op) && NamesAll(op) && (op.Crash? || Writes(s, op) || (Sound(s) && !op.Restart?))
    ensures Sound(Step(s, op).0)
  {
    StepReadable(s, op);
    hide Readable, DiskTrail, Present;
    if Writes(s, op) && Persisted(op) {
      assert AllWellFormed(Next(s, op));
      CommitRestoresExactly(s, op);
    }
  }

  lemma {:induction false} RunSound(s: Store, ops: seq<Op>, before: bool)
    requires Present(s.disk) && Readable(s.disk.primary) && Readable(s.disk.journal) && AllWellFormed(s.entries)
    requires RunPossible(s, ops) && forall op <- ops :: NamesAll(op)
    requires (before || Sound(s)) && !OnlyRestarted(s, ops, before)
    ensures Sound(Run(s, ops))
    decreases |ops|
  {
    hide Step, Sound, Present, Readable, AllWellFormed, NamesAll, Writes, Possible;
    if ops != [] {
      var op := ops[0];
      StepReadable(s, op);
      if !op.Restart? && (op.Crash? || Writes(s, op) || !before) {
        StepSound(s, op);
      }
      RunSound(Step(s, op).0, ops[1..], op.Restart? || (before && !op.Crash? && !Writes(s, op)));
    }
  }

  /** Therefore every success is restored unless the process has restarted without a
      crash and not written anything since. */
  lemma NamedCommitsAreRestored(primary: Content, journal: Content, ops: seq<Op>, op: Op)
    requires ReadRecords(primary).Recovered? && ReadRecords(journal).Recovered?
    requires RunPossible(Fresh(primary, journal), ops) && forall x <- ops + [op] :: NamesAll(x)
    requires op.Commit? && Step(Run(Fresh(primary, journal), ops), op).1 == Committed
    requires !OnlyRestarted(Fresh(primary, journal), ops, false) || Writes(Run(Fresh(primary, journal), ops), op)
    ensures var s' := Step(Run(Fresh(primary, journal), ops), op).0; AllRestored(s'.disk, s'.entries)
  {
    hide *;
    var s := Run(Fresh(primary, journal), ops);
    NamedCommitsExactly(primary, journal, ops, op);
    if NothingToWrite(s, op) {
      ShortcutWrites(s, op);
      FreshSound(primary, journal);
      assert forall x <- ops :: x in ops + [op];
      RunSound(Fresh(primary, journal), ops, false);
      ShortcutSound(s, op);
    }
  }

  lemma ShortcutWrites(s: Store, op: Op)
    requires op.Commit? && NothingToWrite(s, op)
    ensures !Writes(s, op)
  {
  }

  lemma ShortcutSound(s: Store, op: Op)
    requires Sound(s) && op.Commit? && NothingToWrite(s, op) && Step(s, op).1 == Committed
    ensures Settled(s.disk, s.entries)
  {
    RestoredMeaning(s.disk, s.entries);
  }

  lemma FreshSound(primary: Content, journal: Content)
    requires ReadRecords(primary).Recovered? && ReadRecords(journal).Recovered?
    ensures Sound(Fresh(primary, journal))
  {
  }

  /** In that case a success can be lost: a record whose write was left uncertain is read
      after a restart, committing it again writes nothing and succeeds, and a later power
      failure takes it. */
  lemma ShortcutAfterRestart()
    ensures exists ops: seq<Op>, op: Op ::
      && RunPossible(Fresh(Missing, Missing), ops) && (forall x <- ops + [op] :: NamesAll(x)) && op.Commit?
      && var s := Run(Fresh(Missing, Missing), ops);
         && Step(s, op).1 == Committed && !AllRestored(Step(s, op).0.disk, Step(s, op).0.entries)
  {
    var t := Transfer("t1", "s1", "", false, false, "outgoing", "", "");
    var first := Commit("k", Some(t), "", true, Outcomes(Synced, MaybeReplaced, Removed, true));
    var again := first.(expectedID := "t1");
    var guards: Guards := map["k" := t];
    var restart := Restart(Stored(guards), Missing);
    var s0 := Fresh(Missing, Missing);
    var s1, trail := Step(s0, first).0, DiskTrail(s0, first);
    assert Next(s0, first) == guards;
    assert s1.disk == trail[1];
    assert s1.disk.primary == {Missing, Stored(guards)} && s1.disk.journal == {Missing};
    var s2 := Step(s1, restart).0;
    assert s2 == Store(guards, false, false, s1.disk);
    var ops := [first, restart];
    assert Run(s1, [restart]) == Run(s2, []) by { assert [restart][1..] == []; }
    assert Run(s0, ops) == s2 by { assert ops[1..] == [restart]; }
    assert RunPossible(s1, [restart]) by { assert [restart][1..] == []; }
    assert RunPossible(s0, ops) by { assert ops[1..] == [restart]; }
    assert Next(s2, again) == guards;
    assert Step(s2, again) == (s2, Committed);
    assert !AllRestored(s2.disk, s2.entries) by {
      assert Missing in s2.disk.primary && Missing in s2.disk.journal;
      assert LoadFrom(Missing, Missing).Recovered? && "k" !in LoadFrom(Missing, Missing).entries;
    }
  }

  // Restarting without a crash

  /** Loading this content is refused or finds the guard. */
  predicate Holds(c: Content, key: string) {
    ReadRecords(c).Refused? || key in ReadRecords(c).entries
  }

  /** A guard survives every crash if and only if one of the two files has it, or
      cannot be read, in all the contents it may turn out to have. */
  lemma DurableMeaning(disk: Disk, key: string)
    ensures Durable(disk, key) <==>
              (forall p <- disk.primary :: Holds(p, key)) || (forall j <- disk.journal :: Holds(j, key))
  {
    if p :| p in disk.primary && !Holds(p, key) {
      if j :| j in disk.journal && !Holds(j, key) {
        assert !StillBlocked(LoadFrom(p, j), key);
      }
    }
  }

  /** What a restarted process shows as blocked is guarded from then on exactly under
      this condition, and in particular if memory had the guard before. */
  lemma RestartGuardsExactly(s: Store, p: Content, j: Content, key: string)
    requires p in s.disk.primary && j in s.disk.journal
    ensures var s' := Step(s, Restart(p, j)).0;
            && (Guarded(s', key) <==>
                  (forall c <- s.disk.primary :: Holds(c, key)) || (forall c <- s.disk.journal :: Holds(c, key)))
            && (Guarded(s, key) || (Inv(s) && key in s.entries) ==> Guarded(s', key))
  {
    DurableMeaning(s.disk, key);
    if Durable(s.disk, key) {
      assert StillBlocked(LoadFrom(p, j), key);
    }
  }

  /** Without it, a process that restarts may read a replacement that is not durable
      yet; a later power failure then takes a guard with it that memory still shows. */
  lemma RestartWithoutCrash()
    ensures exists s: Store, p: Content, j: Content, key: string ::
      && Inv(s) && Possible(s, Restart(p, j))
      && Step(s, Restart(p, j)).0.Blocks(key) && !Durable(Step(s, Restart(p, j)).0.disk, key)
  {
    var s := Fresh(Missing, Missing);
    FreshInv(Missing, Missing);
    var t := Transfer("t1", "s1", "", false, false, "outgoing", "", "");
    var op := Commit("k", Some(t), "", true, Outcomes(Synced, MaybeReplaced, Removed, true));
    StepInv(s, op);
    var s' := Step(s, op).0;
    var guards: Guards := map["k" := t];
    assert Next(s, op) == guards;
    var trail := DiskTrail(s, op);
    assert s'.disk == trail[1];
    assert s'.disk.primary == {Missing, Stored(guards)} && s'.disk.journal == {Missing};
    assert Possible(s', Restart(Stored(guards), Missing));
    assert Step(s', Restart(Stored(guards), Missing)).0.Blocks("k");
    assert !StillBlocked(LoadFrom(Missing, Missing), "k");
    assert Missing in s'.disk.primary && Missing in s'.disk.journal;
    assert !Durable(s'.disk, "k");
  }

  // Updates of one live transfer

  function Updated(t: Transfer, vs: seq<Transfer>): Transfer
    decreases |vs|
  {
    if vs == [] then t else Updated(Normalized(Some(t), vs[0], true), vs[1..])
  }

  function FirstStart(ts: seq<Transfer>): string {
    if ts == [] then "" else if ts[0].startedAt != "" then ts[0].startedAt else FirstStart(ts[1..])
  }

  /** Any run of updates keeps the first start time and every interruption. */
  lemma {:induction false} UpdatesKeep(t: Transfer, vs: seq<Transfer>)
    ensures Updated(t, vs).startedAt == FirstStart([t] + vs)
    ensures Updated(t, vs).interrupted <==> exists v :: v in [t] + vs && v.interrupted
    decreases |vs|
  {
    if vs == [] {
      assert ([t] + vs)[1..] == [];
      assert t in [t] + vs;
    } else {
      var n := Normalized(Some(t), vs[0], true);
      UpdatesKeep(n, vs[1..]);
      assert ([t] + vs)[1..] == vs && ([n] + vs[1..])[1..] == vs[1..];
      assert [t] + vs == [t, vs[0]] + vs[1..];
      if v :| v in [t] + vs && v.interrupted {
        assert v in [t, vs[0]] || v in vs[1..];
        assert n in [n] + vs[1..];
      }
      if v :| v in [n] + vs[1..] && v.interrupted {
        assert t in [t] + vs && vs[0] in [t] + vs;
      }
    }
  }

  /** Every journal record whose key the current file does not have. */
  method Merge(current: Guards, journal: Guards) returns (merged: Guards)
    ensures merged == journal + current
  {
    merged := current;
    var keys := journal.Keys;
    while keys != {}
      invariant keys <= journal.Keys
      invariant merged == (map k | k in journal && k !in keys :: journal[k]) + current
      decreases keys
    {
      var key :| key in keys;
      if key !in merged {
        merged := merged[key := journal[key]];
      }
      keys := keys - {key};
    }
  }

  /** sessionTransferStore. `disk` is what the environment may hold; it is not a
      field of the program. */
  class TransferStore {
    var entries: Guards
    var loadErr: bool
    var writeUncertain: bool
    ghost var disk: Disk

    ghost function Abs(): Store
      reads this
    {
      Store(entries, loadErr, writeUncertain, disk)
    }

    constructor (ghost disk: Disk)
      ensures Abs() == Store(map[], false, false, disk)
    {
      entries, loadErr, writeUncertain := map[], false, false;
      this.disk := disk;
    }

    /** Load in a new process; `primary` and `journal` are what the files hold now. */
    method Load(primary: Content, journal: Content, ghost crashed: bool) returns (ok: bool)
      requires entries == map[] && !loadErr && !writeUncertain
      requires Possible(Abs(), Crash(primary, journal))
      modifies this
      ensures Abs() == Step(old(Abs()), if crashed then Crash(primary, journal) else Restart(primary, journal)).0
      ensures ok == !loadErr
    {
      disk := if crashed then Disk({primary}, {journal}) else disk;
      var current := ReadRecords(primary);
      if current.Refused? {
        loadErr := true;
        return false;
      }
      var merged := current.entries;
      var pending := ReadRecords(journal);
      if pending.Refused? {
        loadErr := true;
        return false;
      }
      merged := Merge(merged, pending.entries);
      entries := merged;
      loadErr := false;
      writeUncertain := false;
      ok := true;
    }

    /** Blocked; what it answers survives any crash while the process lives. */
    method Blocked(key: string) returns (blocked: bool)
      ensures blocked == Abs().Blocks(key)
      ensures blocked && !loadErr && Inv(Abs()) ==>
                forall p <- disk.primary, j <- disk.journal :: StillBlocked(LoadFrom(p, j), key)
    {
      blocked := key in entries || loadErr;
    }

    /** commit; the outcomes of the writes are chosen by the environment. */
    method Commit(key: string, value: Option<Transfer>, expectedID: string, inherit: bool,
                  outcomes: Outcomes) returns (answer: Answer)
      modifies this
      ensures (Abs(), answer) == Step(old(Abs()), Op.Commit(key, value, expectedID, inherit, outcomes))
      ensures answer == Committed ==>
                !old(loadErr)
                && if expectedID == "" then key !in old(entries)
                   else key in old(entries) && old(entries)[key].transferID == expectedID
    {
      ghost var op := Op.Commit(key, value, expectedID, inherit, outcomes);
      if loadErr {
        return StorageUnavailable;
      }
      var ok := key in entries;
      if expectedID != "" && (!ok || entries[key].transferID != expectedID) {
        return Stale;
      }
      if expectedID == "" && ok {
        return Busy;
      }
      var next := entries;
      if value.Some? {
        var v := value.value;
        if inherit && ok {
          v := v.(interrupted := v.interrupted || entries[key].interrupted);
          if entries[key].startedAt != "" {
            v := v.(startedAt := entries[key].startedAt);
          }
        }
        v := v.(waitExpired := false);
        if ok && !writeUncertain && entries[key] == v {
          assert entries[key := v] == entries;
          return Committed;
        }
        next := next[key := v];
        assert ok && !writeUncertain ==> next[key] != entries[key];
      } else {
        next := next - {key};
      }
      assert next == Next(old(Abs()), op) && !NothingToWrite(old(Abs()), op);
      writeUncertain := true;
      if value.None? {
        disk := disk.(journal := AfterWrite(disk.journal, Stored(entries), outcomes.journalWrite));
        if outcomes.journalWrite != Synced {
          return NotPersisted;
        }
      }
      disk := disk.(primary := AfterWrite(disk.primary, Stored(next), outcomes.primaryWrite));
      if outcomes.primaryWrite != Synced {
        return NotPersisted;
      }
      if value.None? {
        if outcomes.removal == RemoveFailed {
          return NotPersisted;
        }
        disk := disk.(journal := disk.journal + {Missing});
        if outcomes.cleanupSynced {
          disk := disk.(journal := {Missing});
        }
      }
      entries := next;
      writeUncertain := false;
      return Committed;
    }

    method FailClosed()
      modifies this
      ensures Abs() == Step(old(Abs()), Op.FailClosed).0
      ensures forall key :: Abs().Blocks(key)
    {
      loadErr := true;
    }
  }
}
