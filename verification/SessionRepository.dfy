/**
 * Committing to a session and bringing it back
 * (packages/core/src/runtime/session/session-repository.service.ts).
 */
module SessionRepositories {
  import opened Options
  import opened Journal
  import opened SessionStates
  import opened StateHistories
  import opened Snapshots
  import opened SessionJournals
  import opened InMemoryStorage

  datatype CommitResult = Projected(state: SessionState) | NotCommitted(error: StorageError)

  datatype Rehydration =
    | Rehydrated(session: Session, state: SessionState, fromSnapshot: bool)
    | Missing(id: SessionId)
    | Broken(found: nat, previous: nat)

  /** A session as a storage keeps it: its journal and at most one snapshot. */
  datatype Kept = Kept(journaled: Journaled, snapshot: Option<Snapshot>)

  // ---------------------------------------------------------------- what the two operations come to

  function SnapshotOf(everyEvents: nat, command: AppendEvents, events: seq<Stored>, revision: nat, state: SessionState)
    : Option<Snapshot>
    requires everyEvents > 0
  {
    if events == [] || !ShouldSnapshot(everyEvents, command.expectedRevision, revision, state) then None
    else
      var checksum := ChecksumOf(command.sessionId, PROJECTOR_VERSION, state);
      Some(Snapshot(command.sessionId, revision, PROJECTOR_VERSION, state, checksum))
  }

  /** A commit, in a storage that may or may not manage to save a snapshot. */
  function Committing(kind: Kind, everyEvents: nat, kept: Kept, command: AppendEvents, state: SessionState, saves: bool)
    : (Kept, CommitResult)
    requires everyEvents > 0
  {
    var (after, appended) := AppendTo(kind, kept.journaled, command);
    match appended
    case Refused(error) => (kept, NotCommitted(error))
    case Committed(events, revision) =>
      var projected := ApplyAll(state, events);
      var snapshot := SnapshotOf(everyEvents, command, events, revision, projected);
      (Kept(after, if saves && snapshot.Some? then snapshot else kept.snapshot), Projected(projected))
  }

  predicate IsUsable(kept: Kept) {
    kept.snapshot.Some? &&
      var snapshot := kept.snapshot.value;
      snapshot.IsUsableAt(PROJECTOR_VERSION, kept.journaled.session.revision,
        ChecksumOf(kept.journaled.session.id, snapshot.projectorVersion, snapshot.state))
  }

  /** Folding a tail whose revisions must follow each other. */
  function FoldTail(session: Session, state: SessionState, previous: nat, events: seq<Stored>, fromSnapshot: bool): Rehydration
    decreases |events|
  {
    if events == [] then Rehydrated(session, state, fromSnapshot)
    else if events[0].revision != previous + 1 then Broken(events[0].revision, previous)
    else FoldTail(session, Apply(state, events[0]), events[0].revision, events[1..], fromSnapshot)
  }

  function Rehydrating(kept: Kept): Rehydration {
    var usable := IsUsable(kept);
    var from := if usable then kept.snapshot.value.revision else 0;
    var state := if usable then kept.snapshot.value.state.At(from) else INITIAL;
    FoldTail(kept.journaled.session, state, from, After(kept.journaled.events, from), usable)
  }

  class SessionRepository {
    const storage: InMemorySessionStorage
    const everyEvents: nat

    constructor (storage: InMemorySessionStorage, everyEvents: nat)
      requires everyEvents > 0
      ensures this.storage == storage && this.everyEvents == everyEvents
    {
      this.storage := storage;
      this.everyEvents := everyEvents;
    }

    ghost function KeptOf(id: SessionId): Kept
      requires id in storage.records
      reads storage
    {
      Kept(Journaled(storage.records[id].session, storage.records[id].events), storage.records[id].snapshot)
    }

    method Commit(command: AppendEvents, state: SessionState) returns (result: CommitResult)
      requires everyEvents > 0
      modifies storage
      ensures storage.records.Keys == old(storage.records).Keys
      ensures forall id :: id in storage.records && id != command.sessionId ==> storage.records[id] == old(storage.records)[id]
      ensures command.sessionId !in old(storage.records) ==>
        result == NotCommitted(SessionNotFound(command.sessionId)) && storage.Contents() == old(storage.Contents())
      ensures command.sessionId in old(storage.records) ==>
        var (kept, expected) := Committing(InMemory, everyEvents, old(KeptOf(command.sessionId)), command, state, true);
        result == expected && KeptOf(command.sessionId) == kept
    {
      var appended := storage.Append(command);
      if appended.Refused? {
        return NotCommitted(appended.error);
      }
      var projected := ApplyAll(state, appended.events);
      SaveSnapshot(command, appended.events, appended.revision, projected);
      return Projected(projected);
    }

    /** Saves a snapshot when there is one to save. */
    method SaveSnapshot(command: AppendEvents, events: seq<Stored>, revision: nat, state: SessionState)
      requires everyEvents > 0 && command.sessionId in storage.records
      modifies storage
      ensures storage.records.Keys == old(storage.records).Keys
      ensures forall id :: id in storage.records && id != command.sessionId ==> storage.records[id] == old(storage.records)[id]
      ensures KeptOf(command.sessionId).journaled == old(KeptOf(command.sessionId)).journaled
      ensures var snapshot := SnapshotOf(everyEvents, command, events, revision, state);
        KeptOf(command.sessionId).snapshot == if snapshot.Some? then snapshot else old(KeptOf(command.sessionId)).snapshot
    {
      if |events| == 0 || !ShouldSnapshot(everyEvents, command.expectedRevision, revision, state) {
        return;
      }
      var checksum := ChecksumOf(command.sessionId, PROJECTOR_VERSION, state);
      var _ := storage.SaveSnapshot(Snapshot(command.sessionId, revision, PROJECTOR_VERSION, state, checksum));
    }

    method Rehydrate(id: SessionId) returns (rehydrated: Rehydration)
      ensures rehydrated
           == if id in storage.records then Rehydrating(KeptOf(id)) else Missing(id)
    {
      var session := storage.Find(id);
      if session.None? {
        return Missing(id);
      }
      var snapshot := storage.FindSnapshot(id);
      var usable := snapshot.Some? && snapshot.value.IsUsableAt(PROJECTOR_VERSION, session.value.revision,
        ChecksumOf(session.value.id, snapshot.value.projectorVersion, snapshot.value.state));
      var previous: nat := if usable then snapshot.value.revision else 0;
      var state := if usable then snapshot.value.state.At(previous) else INITIAL;
      var events := storage.ReadEvents(id, previous);
      var tail := events.value;
      assert tail[0..] == tail;
      for i := 0 to |tail|
        invariant Rehydrating(KeptOf(id)) == FoldTail(session.value, state, previous, tail[i..], usable)
      {
        assert tail[i..][1..] == tail[i + 1..];
        if tail[i].revision != previous + 1 {
          return Broken(tail[i].revision, previous);
        }
        state := Apply(state, tail[i]);
        previous := tail[i].revision;
      }
      return Rehydrated(session.value, state, usable);
    }
  }

  // ---------------------------------------------------------------- snapshots change nothing

  /** A snapshot that stands for the fold of the journal up to its revision. */
  ghost predicate Faithful(snapshot: Snapshot, journal: seq<Stored>) {
    snapshot.revision <= |journal| && snapshot.state.At(snapshot.revision) == Fold(journal[..snapshot.revision])
  }

  ghost predicate Sound(kept: Kept) {
    && FromOne(kept.journaled)
    && UniqueIds(kept.journaled.events)
    && (kept.snapshot.Some? ==> Faithful(kept.snapshot.value, kept.journaled.events))
  }

  /** Reading after a revision is dropping that many events. */
  lemma {:induction false} AfterIsDrop(journal: seq<Stored>, base: nat, revision: nat)
    requires forall i :: 0 <= i < |journal| ==> journal[i].revision == base + i + 1
    requires base <= revision <= base + |journal|
    ensures After(journal, revision) == journal[revision - base..]
    decreases |journal|
  {
    if journal != [] {
      if revision == base {
        AfterAll(journal, revision);
      } else {
        AfterIsDrop(journal[1..], base + 1, revision);
      }
    }
  }

  lemma {:induction false} ReplayFolds(session: Session, state: SessionState, previous: nat, events: seq<Stored>, fromSnapshot: bool)
    requires forall i :: 0 <= i < |events| ==> events[i].revision == previous + i + 1
    ensures FoldTail(session, state, previous, events, fromSnapshot)
         == Rehydrated(session, ApplyAll(state, events), fromSnapshot)
    decreases |events|
  {
    if events != [] {
      ReplayFolds(session, Apply(state, events[0]), previous + 1, events[1..], fromSnapshot);
    }
  }

  /** Snapshot and tail come to the fold of the whole journal; so does a journal whose snapshot is unusable. */
  lemma {:induction false} RehydratesToTheFold(kept: Kept)
    requires FromOne(kept.journaled)
    requires IsUsable(kept) ==> Faithful(kept.snapshot.value, kept.journaled.events)
    ensures Rehydrating(kept)
         == Rehydrated(kept.journaled.session, Fold(kept.journaled.events), IsUsable(kept))
  {
    var journal := kept.journaled.events;
    var from := if IsUsable(kept) then kept.snapshot.value.revision else 0;
    AfterIsDrop(journal, 0, from);
    FoldGoesOn(journal, from);
    assert journal[..0] == [];
    ReplayFolds(kept.journaled.session, Fold(journal[..from]), from, journal[from..], IsUsable(kept));
  }

  /**
   * A snapshot is used exactly when it was projected by this version, claims no more than there is, and
   * its digest is that of its state; anything else leads to a full replay.
   */
  lemma {:induction false} SnapshotIsUsedExactly(kept: Kept)
    requires FromOne(kept.journaled)
    ensures var session, rehydrated := kept.journaled.session, Rehydrating(kept);
      && rehydrated.Rehydrated? && rehydrated.session == session
      && (rehydrated.fromSnapshot <==>
            && kept.snapshot.Some?
            && var snapshot := kept.snapshot.value;
            && snapshot.projectorVersion == 5 && snapshot.revision <= session.revision
            && snapshot.checksum.sessionId == session.id && snapshot.checksum.projectorVersion == 5
            && snapshot.checksum.revision == snapshot.state.revision
            && snapshot.checksum.values == snapshot.state.values
            && snapshot.checksum.activeAgent == snapshot.state.activeAgent)
      && (!rehydrated.fromSnapshot ==> rehydrated.state == Fold(kept.journaled.events))
  {
    if IsUsable(kept) {
      var snapshot, journal := kept.snapshot.value, kept.journaled.events;
      AfterIsDrop(journal, 0, snapshot.revision);
      ReplayFolds(kept.journaled.session, snapshot.state.At(snapshot.revision), snapshot.revision,
        journal[snapshot.revision..], true);
    } else {
      RehydratesToTheFold(kept);
    }
  }

  /**
   * A state put in the place of a snapshot's own is noticed, and the journal replayed instead, unless it
   * agrees on the revision, the values and the active agent; then the session goes on from it.
   */
  lemma {:induction false} ReplacedStatesAreNoticedExactly(kept: Kept, other: SessionState)
    requires FromOne(kept.journaled) && IsUsable(kept)
    ensures var snapshot, journal := kept.snapshot.value, kept.journaled.events;
      var agrees :=
        && other.revision == snapshot.state.revision
        && other.values == snapshot.state.values
        && other.activeAgent == snapshot.state.activeAgent;
      Rehydrating(kept.(snapshot := Some(snapshot.(state := other))))
      == if agrees
         then Rehydrated(kept.journaled.session, ApplyAll(other.At(snapshot.revision), journal[snapshot.revision..]), true)
         else Rehydrated(kept.journaled.session, Fold(journal), false)
  {
    var snapshot, journal := kept.snapshot.value, kept.journaled.events;
    var replaced := kept.(snapshot := Some(snapshot.(state := other)));
    if IsUsable(replaced) {
      AfterIsDrop(journal, 0, snapshot.revision);
      ReplayFolds(kept.journaled.session, other.At(snapshot.revision), snapshot.revision, journal[snapshot.revision..], true);
    } else {
      RehydratesToTheFold(replaced);
    }
  }

  /** Without a usable snapshot a session comes back exactly when its journal starts at one, or is empty. */
  lemma {:induction false} RehydratesExactlyFromOne(kept: Kept)
    requires Contiguous(kept.journaled) && !IsUsable(kept)
    ensures Rehydrating(kept).Rehydrated? <==> FromOne(kept.journaled) || kept.journaled.events == []
  {
    var journal := kept.journaled.events;
    AfterAll(journal, 0);
    if FromOne(kept.journaled) {
      RehydratesToTheFold(kept);
    }
  }

  // ---------------------------------------------------------------- commits keep snapshots faithful

  /** A journal holds, from some index on, the events of a batch. */
  ghost predicate Repeats(journal: seq<Stored>, from: nat, batch: seq<Event>) {
    && from + |batch| <= |journal|
    && (forall i :: from <= i < from + |batch| ==> SameContent(journal[i].event, batch[i - from]))
  }

  /** The batch repeats, event by event, what was written after the revision it expects, up to some revision. */
  ghost predicate Retries(journal: seq<Stored>, command: AppendEvents, reached: nat) {
    && command.batch != []
    && reached == command.expectedRevision + |command.batch|
    && Repeats(journal, command.expectedRevision, command.batch)
  }

  ghost predicate SameContent(written: Event, event: Event) {
    written.id == event.id && written.fact == event.fact
  }

  /** The caller folded what it expects, and the batch is new or retries what was written last. */
  ghost predicate Disciplined(kept: Kept, command: AppendEvents, state: SessionState) {
    var journal := kept.journaled.events;
    && command.sessionId == kept.journaled.session.id
    && DistinctIds(command.batch)
    && command.expectedRevision <= |journal|
    && state == Fold(journal[..command.expectedRevision])
    && (Ids(command.batch) !! KnownIds(journal) || Retries(journal, command, |journal|))
  }

  lemma {:induction false} RepeatsTheRest(journal: seq<Stored>, from: nat, batch: seq<Event>)
    requires Repeats(journal, from, batch) && batch != []
    ensures Repeats(journal, from + 1, batch[1..])
  {
    forall i | from + 1 <= i < from + |batch|
      ensures SameContent(journal[i].event, batch[1..][i - (from + 1)])
    {
      assert SameContent(journal[i].event, batch[i - from]);
    }
  }

  lemma {:induction false} FoundInFront(journal: seq<Stored>, batch: seq<Event>, stored: Stored, rest: seq<Stored>)
    requires batch != [] && LastWith(journal, batch[0].id) == Some(stored) && stored.event.fact == batch[0].fact
    requires FindInMemory(journal, batch[1..]) == Replayed(rest)
    ensures FindInMemory(journal, batch) == Replayed([stored] + rest)
  {
  }

  lemma {:induction false} RetryInMemory(journal: seq<Stored>, from: nat, batch: seq<Event>)
    requires UniqueIds(journal) && Repeats(journal, from, batch)
    ensures FindInMemory(journal, batch) == Replayed(journal[from..from + |batch|])
    decreases |batch|
  {
    if batch != [] {
      var stored, rest := journal[from], journal[from + 1..from + |batch|];
      assert SameContent(stored.event, batch[0]);
      assert journal[from..from + |batch|] == [stored] + rest;
      OnlyOneUnderAnId(journal, stored);
      RepeatsTheRest(journal, from, batch);
      RetryInMemory(journal, from + 1, batch[1..]);
      FoundInFront(journal, batch, stored, rest);
    }
  }

  /** Selecting the ids of a segment selects the segment. */
  lemma {:induction false} SelectSegment(journal: seq<Stored>, from: nat, reached: nat, ids: set<EventId>)
    requires from <= reached <= |journal|
    requires forall i :: 0 <= i < |journal| ==> (journal[i].event.id in ids <==> from <= i < reached)
    ensures ByIds(journal, ids) == journal[from..reached]
    decreases |journal|
  {
    if journal != [] {
      var last := |journal| - 1;
      var end := if reached <= last then reached else last;
      var begin := if from <= end then from else end;
      SelectSegment(journal[..last], begin, end, ids);
      SegmentOfFront(journal, from, reached, begin, end);
    }
  }

  lemma {:induction false} SegmentOfFront(journal: seq<Stored>, from: nat, reached: nat, begin: nat, end: nat)
    requires journal != [] && from <= reached <= |journal|
    requires end == if reached < |journal| then reached else |journal| - 1
    requires begin == if from <= end then from else end
    ensures var last := |journal| - 1;
      journal[from..reached]
      == journal[..last][begin..end] + (if from <= last < reached then [journal[last]] else [])
  {
  }

  /** In a journal with unique ids, the ids of the batch are those of the segment. */
  lemma {:induction false} SegmentIds(journal: seq<Stored>, from: nat, batch: seq<Event>, i: nat)
    requires UniqueIds(journal) && Repeats(journal, from, batch) && i < |journal|
    ensures journal[i].event.id in Ids(batch) <==> from <= i < from + |batch|
  {
    if from <= i < from + |batch| {
      assert SameContent(journal[i].event, batch[i - from]);
      assert batch[i - from] in batch;
    } else {
      forall k | 0 <= k < |batch| ensures batch[k].id != journal[i].event.id {
        assert SameContent(journal[from + k].event, batch[from + k - from]);
      }
    }
  }

  lemma {:induction false} RetryInTable(journal: seq<Stored>, from: nat, batch: seq<Event>)
    requires UniqueIds(journal) && Repeats(journal, from, batch) && batch != []
    ensures FindInTable(journal, batch) == Replayed(journal[from..from + |batch|])
  {
    assert Written(journal, batch) by {
      forall event | event in batch ensures WrittenAs(journal, event) {
        var i :| 0 <= i < |batch| && batch[i] == event;
        assert SameContent(journal[from + i].event, batch[from + i - from]);
      }
    }
    WrittenNeverClashes(journal, batch);
    forall i | 0 <= i < |journal| ensures journal[i].event.id in Ids(batch) <==> from <= i < from + |batch| {
      SegmentIds(journal, from, batch, i);
    }
    assert journal[from].event.id in KnownIds(journal) && journal[from].event.id in Ids(batch);
    SelectSegment(journal, from, from + |batch|, Ids(batch));
  }

  lemma {:induction false} RetryReplaysTheSegment(kind: Kind, kept: Kept, command: AppendEvents, reached: nat)
    requires UniqueIds(kept.journaled.events) && Retries(kept.journaled.events, command, reached)
    ensures AppendTo(kind, kept.journaled, command)
         == (kept.journaled,
             Committed(kept.journaled.events[command.expectedRevision..reached], kept.journaled.session.revision))
  {
    var journal := kept.journaled.events;
    match kind {
      case InMemory => RetryInMemory(journal, command.expectedRevision, command.batch);
      case Sqlite => RetryInTable(journal, command.expectedRevision, command.batch);
    }
  }

  lemma {:induction false} FreshExtends(kind: Kind, kept: Kept, command: AppendEvents)
    requires Ids(command.batch) !! KnownIds(kept.journaled.events)
    ensures Find(kind, kept.journaled.events, command.batch).Fresh?
  {
    FreshInMemory(kept.journaled.events, command.batch);
    if command.batch != [] {
      assert command.batch[0].id in Ids(command.batch);
    }
  }

  /** What a disciplined commit that succeeds leaves behind, before any snapshot. */
  lemma {:induction false} CommitReachesTheFold(kind: Kind, kept: Kept, command: AppendEvents, state: SessionState)
    requires Sound(kept) && Disciplined(kept, command, state)
    ensures var (after, appended) := AppendTo(kind, kept.journaled, command);
      && FromOne(after) && UniqueIds(after.events) && kept.journaled.events <= after.events
      && (appended.Committed? ==>
            && appended.revision == after.session.revision
            && ApplyAll(state, appended.events) == Fold(after.events))
  {
    var journal := kept.journaled.events;
    AppendKeepsContiguous(kind, kept.journaled, command);
    if Retries(journal, command, |journal|) {
      RetryReplaysTheSegment(kind, kept, command, |journal|);
      FoldGoesOn(journal, command.expectedRevision);
      assert journal[command.expectedRevision..|journal|] == journal[command.expectedRevision..];
    } else {
      FreshExtends(kind, kept, command);
      if kept.journaled.session.revision == command.expectedRevision {
        FreshIdsStayUnique(kept.journaled, command);
        assert journal[..|journal|] == journal;
        ApplyAllAppend(INITIAL, journal, Numbered(command.batch, |journal|));
      }
    }
  }

  /**
   * A disciplined commit answers the fold of the journal it leaves, and every snapshot, new or kept,
   * stands for the fold at its revision, in both storages and whether or not the snapshot was saved.
   */
  lemma {:induction false} CommitKeepsSound(
    kind: Kind, everyEvents: nat, kept: Kept, command: AppendEvents, state: SessionState, saves: bool)
    requires everyEvents > 0 && Sound(kept) && Disciplined(kept, command, state)
    ensures var (after, result) := Committing(kind, everyEvents, kept, command, state, saves);
      Sound(after) && (result.Projected? ==> result.state == Fold(after.journaled.events))
  {
    CommitReachesTheFold(kind, kept, command, state);
    var (after, appended) := AppendTo(kind, kept.journaled, command);
    if appended.Committed? {
      FoldIsFaithful(after, ApplyAll(state, appended.events));
      if kept.snapshot.Some? {
        StaysFaithful(kept.snapshot.value, kept.journaled.events, after.events);
      }
    }
  }

  /** A snapshot of the fold at the head is faithful. */
  lemma {:induction false} FoldIsFaithful(journaled: Journaled, state: SessionState)
    requires FromOne(journaled) && state == Fold(journaled.events)
    ensures state.At(journaled.session.revision) == Fold(journaled.events[..journaled.session.revision])
  {
    var journal := journaled.events;
    assert journal[..|journal|] == journal;
    if journal != [] {
      ReachesLast(INITIAL, journal);
    }
  }

  lemma {:induction false} StaysFaithful(snapshot: Snapshot, before: seq<Stored>, after: seq<Stored>)
    requires Faithful(snapshot, before) && before <= after
    ensures Faithful(snapshot, after)
  {
    assert after[..snapshot.revision] == before[..snapshot.revision];
  }

  datatype CommitCall = CommitCall(command: AppendEvents, state: SessionState, saves: bool)

  function CommitAll(kind: Kind, everyEvents: nat, kept: Kept, calls: seq<CommitCall>): Kept
    requires everyEvents > 0
    decreases |calls|
  {
    if calls == [] then kept
    else
      var after := Committing(kind, everyEvents, kept, calls[0].command, calls[0].state, calls[0].saves).0;
      CommitAll(kind, everyEvents, after, calls[1..])
  }

  ghost predicate AllDisciplined(kind: Kind, everyEvents: nat, kept: Kept, calls: seq<CommitCall>)
    requires everyEvents > 0
    decreases |calls|
  {
    calls == []
    || (&& Disciplined(kept, calls[0].command, calls[0].state)
        && AllDisciplined(kind, everyEvents,
             Committing(kind, everyEvents, kept, calls[0].command, calls[0].state, calls[0].saves).0, calls[1..]))
  }

  /** After any run of disciplined commits, rehydrating answers the fold of the whole journal: what its facts tell. */
  lemma {:induction false} RunsRehydrate(kind: Kind, everyEvents: nat, kept: Kept, calls: seq<CommitCall>)
    requires everyEvents > 0 && Sound(kept) && AllDisciplined(kind, everyEvents, kept, calls)
    ensures var end := CommitAll(kind, everyEvents, kept, calls);
      && Sound(end)
      && Rehydrating(end) == Rehydrated(end.journaled.session, Fold(end.journaled.events), IsUsable(end))
      && Told(end.journaled.events, Rehydrating(end).state)
    decreases |calls|
  {
    if calls == [] {
      RehydratesToTheFold(kept);
      FoldIsTold(kept.journaled.events);
    } else {
      var call := calls[0];
      CommitKeepsSound(kind, everyEvents, kept, call.command, call.state, call.saves);
      RunsRehydrate(kind, everyEvents, Committing(kind, everyEvents, kept, call.command, call.state, call.saves).0, calls[1..]);
    }
  }

  // ---------------------------------------------------------------- retries that do not end at the head

  /** A retry writes nothing, and answers the fold up to where its batch ends. */
  lemma {:induction false} RetryFoldsToItsEnd(
    kind: Kind, everyEvents: nat, kept: Kept, command: AppendEvents, state: SessionState, saves: bool, reached: nat)
    requires everyEvents > 0 && UniqueIds(kept.journaled.events)
    requires Retries(kept.journaled.events, command, reached)
    requires state == Fold(kept.journaled.events[..command.expectedRevision])
    ensures var (after, result) := Committing(kind, everyEvents, kept, command, state, saves);
      && after.journaled == kept.journaled
      && result == Projected(Fold(kept.journaled.events[..reached]))
  {
    var journal, from := kept.journaled.events, command.expectedRevision;
    RetryReplaysTheSegment(kind, kept, command, reached);
    assert journal[..reached][..from] == journal[..from] && journal[..reached][from..] == journal[from..reached];
    FoldGoesOn(journal[..reached], from);
  }

  datatype Retry = Retry(everyEvents: nat, kept: Kept, command: AppendEvents, state: SessionState)
  {
    /** A caller who folded what it expects sends again a batch whose events were written, and the snapshot is saved. */
    ghost predicate Ends(reached: nat, head: nat) {
      && everyEvents > 0 && Sound(kept) && |kept.journaled.events| == head
      && command.sessionId == kept.journaled.session.id
      && Retries(kept.journaled.events, command, reached)
      && state == Fold(kept.journaled.events[..command.expectedRevision])
    }

    ghost function Outcome(kind: Kind): (Kept, CommitResult)
      requires everyEvents > 0
    {
      Committing(kind, everyEvents, kept, command, state, true)
    }
  }

  ghost predicate AnswersTheFold(kind: Kind, retry: Retry)
    requires retry.everyEvents > 0
  {
    retry.Outcome(kind).1 == Projected(Fold(retry.kept.journaled.events))
  }

  ghost predicate LeavesSound(kind: Kind, retry: Retry)
    requires retry.everyEvents > 0
  {
    Sound(retry.Outcome(kind).0)
  }

  /**
   * A retry answers the fold of its journal, and leaves a snapshot that stands for it, in every
   * session exactly when its batch ends at the head.
   */
  lemma {:induction false} RetriesAreFaithfulExactlyAtTheHead(kind: Kind, reached: nat, head: nat)
    requires 1 <= reached <= head
    ensures (forall retry: Retry :: retry.Ends(reached, head) ==> AnswersTheFold(kind, retry)) <==> reached == head
    ensures (forall retry: Retry :: retry.Ends(reached, head) ==> LeavesSound(kind, retry)) <==> reached == head
  {
    if reached == head {
      forall retry: Retry | retry.Ends(reached, head)
        ensures AnswersTheFold(kind, retry) && LeavesSound(kind, retry)
      {
        var journal := retry.kept.journaled.events;
        RetryFoldsToItsEnd(kind, retry.everyEvents, retry.kept, retry.command, retry.state, true, reached);
        RetryAtTheHeadIsDisciplined(retry, head);
        CommitKeepsSound(kind, retry.everyEvents, retry.kept, retry.command, retry.state, true);
        assert journal[..reached] == journal;
      }
    } else {
      var retry := EarlyRetry(reached, head);
      EarlyRetryIsWrong(kind, retry, reached, head);
    }
  }

  lemma {:induction false} RetryAtTheHeadIsDisciplined(retry: Retry, head: nat)
    requires retry.Ends(head, head)
    ensures Disciplined(retry.kept, retry.command, retry.state)
  {
    var journal, from, batch := retry.kept.journaled.events, retry.command.expectedRevision, retry.command.batch;
    forall i, j | 0 <= i < j < |batch|
      ensures batch[i].id != batch[j].id
    {
      assert SameContent(journal[from + i].event, batch[from + i - from]);
      assert SameContent(journal[from + j].event, batch[from + j - from]);
    }
  }

  /** A session whose last event hands over to another agent, and a retry of an event before that one. */
  lemma {:induction false} EarlyRetry(reached: nat, head: nat) returns (retry: Retry)
    requires 1 <= reached < head
    ensures retry.Ends(reached, head) && retry.everyEvents == 1 && retry.command.expectedRevision < reached
    ensures Fold(retry.kept.journaled.events[..reached]).activeAgent == None
    ensures Fold(retry.kept.journaled.events).activeAgent == Some("billing")
  {
    var journal := HandedOver(head);
    var kept := Kept(Journaled(Session("s", "support", head), journal), None);
    var batch := [journal[reached - 1].event];
    assert SameContent(journal[reached - 1].event, batch[0]);
    retry := Retry(1, kept, AppendEvents("s", reached - 1, batch), Fold(journal[..reached - 1]));
    HistoryTellsNoAgent(INITIAL, journal[..reached]);
  }

  lemma {:induction false} HandedOver(head: nat) returns (journal: seq<Stored>)
    requires head > 0
    ensures FromOne(Journaled(Session("s", "support", head), journal)) && UniqueIds(journal)
    ensures forall i :: 0 <= i < head - 1 ==> journal[i].event.fact.Recorded?
    ensures Fold(journal).activeAgent == Some("billing")
  {
    journal := seq(head, (i: nat) =>
      Stored(i + 1, Event(seq(i, _ => 'e'), "r", if i == head - 1 then AgentTransferred("billing") else Recorded("run.started"))));
    forall i, j | 0 <= i < j < head
      ensures journal[i].event.id != journal[j].event.id
    {
      assert |journal[i].event.id| == i && |journal[j].event.id| == j;
    }
    FoldGoesOn(journal, head - 1);
    assert journal[head - 1..] == [journal[head - 1]];
    ApplyOne(Fold(journal[..head - 1]), journal[head - 1]);
  }

  lemma {:induction false} HistoryTellsNoAgent(state: SessionState, journal: seq<Stored>)
    requires forall i :: 0 <= i < |journal| ==> journal[i].event.fact.Recorded?
    ensures ApplyAll(state, journal).activeAgent == state.activeAgent
    decreases |journal|
  {
    if journal != [] {
      HistoryTellsNoAgent(Apply(state, journal[0]), journal[1..]);
    }
  }

  lemma {:induction false} EarlyRetryIsWrong(kind: Kind, retry: Retry, reached: nat, head: nat)
    requires retry.Ends(reached, head) && reached < head && retry.everyEvents == 1
    requires Fold(retry.kept.journaled.events[..reached]).activeAgent != Fold(retry.kept.journaled.events).activeAgent
    ensures !AnswersTheFold(kind, retry) && !LeavesSound(kind, retry)
  {
    var journal := retry.kept.journaled.events;
    RetryFoldsToItsEnd(kind, 1, retry.kept, retry.command, retry.state, true, reached);
    RetryReplaysTheSegment(kind, retry.kept, retry.command, reached);
    var snapshot := retry.Outcome(kind).0.snapshot;
    assert snapshot.Some? && snapshot.value.revision == head && snapshot.value.state == Fold(journal[..reached]);
    assert journal[..head] == journal;
  }

  /**
   * It does go wrong: retrying the first of two commits saves a snapshot that claims the head with the
   * state before the second, and the session then comes back to the wrong agent.
   */
  lemma {:induction false} StaleRetryCorruptsTheSnapshot(kind: Kind)
    ensures var first := Event("e-1", "r", AgentTransferred("sales"));
      var second := Event("e-2", "r", AgentTransferred("billing"));
      var kept := Kept(Journaled(Session("s", "support", 2), [Stored(1, first), Stored(2, second)]), None);
      var (after, result) := Committing(kind, 1, kept, AppendEvents("s", 0, [first]), INITIAL, true);
      && Sound(kept)
      && result.Projected? && result.state.activeAgent == Some("sales")
      && Rehydrating(after).Rehydrated? && Rehydrating(after).state.activeAgent == Some("sales")
      && Fold(after.journaled.events).activeAgent == Some("billing")
  {
    var first := Event("e-1", "r", AgentTransferred("sales"));
    var second := Event("e-2", "r", AgentTransferred("billing"));
    var journal := [Stored(1, first), Stored(2, second)];
    var kept := Kept(Journaled(Session("s", "support", 2), journal), None);
    var command := AppendEvents("s", 0, [first]);
    FindsTheFirst(kind, first, second);
    var projected := ApplyAll(INITIAL, [journal[0]]);
    ApplyOne(INITIAL, journal[0]);
    var after := Committing(kind, 1, kept, command, INITIAL, true).0;
    assert after.snapshot.Some? && after.snapshot.value.state == projected && after.snapshot.value.revision == 2;
    AfterNothing(journal, 2);
    FoldGoesOn(journal, 1);
    assert journal[1..] == [journal[1]];
  }

  lemma {:induction false} FindsTheFirst(kind: Kind, first: Event, second: Event)
    requires first.id != second.id
    ensures Find(kind, [Stored(1, first), Stored(2, second)], [first]) == Replayed([Stored(1, first)])
  {
    var journal := [Stored(1, first), Stored(2, second)];
    OnlyOneUnderAnId(journal, journal[0]);
    match kind {
      case InMemory => OneInMemory(journal, first, journal[0]);
      case Sqlite =>
        assert journal[0].event.id in KnownIds(journal) && first.id in Ids([first]);
        OneInTable(journal, first, journal[0]);
        SelectFirst(journal[0], journal[1], Ids([first]));
    }
  }

  lemma {:induction false} OneInMemory(journal: seq<Stored>, event: Event, stored: Stored)
    requires LastWith(journal, event.id) == Some(stored) && stored.event.fact == event.fact
    ensures FindInMemory(journal, [event]) == Replayed([stored])
  {
    assert [event][1..] == [];
    assert FindInMemory(journal, []) == Replayed([]);
  }

  lemma {:induction false} OneInTable(journal: seq<Stored>, event: Event, stored: Stored)
    requires LastWith(journal, event.id) == Some(stored) && stored.event.fact == event.fact
    ensures FirstClash(journal, [event]).None?
  {
    assert [event][1..] == [];
    assert FirstClash(journal, []).None?;
  }

  lemma {:induction false} SelectFirst(one: Stored, other: Stored, ids: set<EventId>)
    requires one.event.id in ids && other.event.id !in ids
    ensures ByIds([one, other], ids) == [one]
  {
    assert [one, other][..1] == [one] && [one][..0] == [];
    assert ByIds([one], ids) == ByIds([], ids) + [one];
  }

  lemma {:induction false} ApplyOne(state: SessionState, stored: Stored)
    ensures ApplyAll(state, [stored]) == Apply(state, stored)
  {
    assert [stored][1..] == [];
    assert ApplyAll(Apply(state, stored), []) == Apply(state, stored);
  }

  lemma {:induction false} AfterNothing(journal: seq<Stored>, revision: nat)
    requires forall i :: 0 <= i < |journal| ==> journal[i].revision <= revision
    ensures After(journal, revision) == []
    decreases |journal|
  {
    if journal != [] {
      AfterNothing(journal[1..], revision);
    }
  }
}
