/**
 * What an append to a session's journal does, in each of the two storages, as a step on the
 * session it appends to. The storages themselves are proved against these steps.
 */
module SessionJournals {
  import opened Options
  import opened Journal

  type SessionId = string

  datatype Session = Session(id: SessionId, rootAgent: AgentName, revision: nat)

  /** A session together with its events. */
  datatype Journaled = Journaled(session: Session, events: seq<Stored>)

  type Store = map<SessionId, Journaled>

  /** One atomic write: the batch is written only if the session still stands at the expected revision. */
  datatype AppendEvents = AppendEvents(sessionId: SessionId, expectedRevision: nat, batch: seq<Event>)

  datatype Corruption = PartiallyWritten | WrittenDifferently(eventId: EventId)

  datatype StorageError =
    | SessionNotFound(id: SessionId)
    | SessionAlreadyExists(id: SessionId)
    | RevisionConflict(id: SessionId, expected: nat, head: nat)
    | JournalCorrupted(id: SessionId, corruption: Corruption)
    | ConstraintViolated

  datatype Appended = Committed(events: seq<Stored>, revision: nat) | Refused(error: StorageError)

  /** The two ways the storages look for a batch that was written before. */
  datatype Kind = InMemory | Sqlite

  /** A batch refuses two events sharing an id when it is built. */
  ghost predicate DistinctIds(batch: seq<Event>) {
    forall i, j :: 0 <= i < j < |batch| ==> batch[i].id != batch[j].id
  }

  function Ids(events: seq<Event>): set<EventId> {
    set event | event in events :: event.id
  }

  function KnownIds(journal: seq<Stored>): set<EventId> {
    set stored | stored in journal :: stored.event.id
  }

  lemma {:induction false} KnownOneMore(journal: seq<Stored>, i: nat)
    requires i < |journal|
    ensures KnownIds(journal[..i + 1]) == KnownIds(journal[..i]) + {journal[i].event.id}
  {
    assert journal[..i + 1] == journal[..i] + [journal[i]];
  }

  /** The last event a journal holds under an id, which is what a map filled in order answers. */
  function LastWith(journal: seq<Stored>, id: EventId): (found: Option<Stored>)
    ensures found.None? <==> id !in KnownIds(journal)
    ensures found.Some? ==> found.value in journal && found.value.event.id == id
  {
    if journal == [] then None
    else
      var last := journal[|journal| - 1];
      if last.event.id == id then Some(last) else LastWith(journal[..|journal| - 1], id)
  }

  /** What looking for a batch among the written events answers. */
  datatype Replay = Fresh | Replayed(events: seq<Stored>) | Clash(corruption: Corruption)

  /** In memory the search gives up at the first id nobody wrote. */
  function FindInMemory(journal: seq<Stored>, batch: seq<Event>): Replay {
    if batch == [] then Replayed([])
    else
      match LastWith(journal, batch[0].id)
      case None => Fresh
      case Some(stored) =>
        if stored.event.fact != batch[0].fact then Clash(WrittenDifferently(batch[0].id))
        else
          match FindInMemory(journal, batch[1..])
          case Replayed(rest) => Replayed([stored] + rest)
          case other => other
  }

  /** The events of a journal under any of some ids, in the order of the journal. */
  function ByIds(journal: seq<Stored>, ids: set<EventId>): seq<Stored> {
    if journal == [] then []
    else
      var before := ByIds(journal[..|journal| - 1], ids);
      var last := journal[|journal| - 1];
      if last.event.id in ids then before + [last] else before
  }

  /** The first disagreement between a batch and what was written under its ids. */
  function FirstClash(journal: seq<Stored>, batch: seq<Event>): Option<Corruption> {
    if batch == [] then None
    else
      match LastWith(journal, batch[0].id)
      case None => Some(PartiallyWritten)
      case Some(stored) =>
        if stored.event.fact != batch[0].fact then Some(WrittenDifferently(batch[0].id))
        else FirstClash(journal, batch[1..])
  }

  /** SQLite asks for all ids at once, and a batch half of which is written is a corrupted journal. */
  function FindInTable(journal: seq<Stored>, batch: seq<Event>): Replay {
    if Ids(batch) !! KnownIds(journal) then Fresh
    else
      match FirstClash(journal, batch)
      case Some(corruption) => Clash(corruption)
      case None => Replayed(ByIds(journal, Ids(batch)))
  }

  function Find(kind: Kind, journal: seq<Stored>, batch: seq<Event>): Replay {
    match kind
    case InMemory =>
      var found := FindInMemory(journal, batch);
      if found == Replayed([]) then Fresh else found
    case Sqlite => FindInTable(journal, batch)
  }

  /** The events of a batch behind a revision, one revision each. */
  function Numbered(batch: seq<Event>, from: nat): (numbered: seq<Stored>)
    ensures |numbered| == |batch|
    ensures forall i :: 0 <= i < |batch| ==> numbered[i] == Stored(from + 1 + i, batch[i])
  {
    if batch == [] then [] else [Stored(from + 1, batch[0])] + Numbered(batch[1..], from + 1)
  }

  function AppendTo(kind: Kind, before: Journaled, command: AppendEvents): (Journaled, Appended) {
    var head := before.session.revision;
    match Find(kind, before.events, command.batch)
    case Replayed(events) => (before, Committed(events, head))
    case Clash(corruption) => (before, Refused(JournalCorrupted(command.sessionId, corruption)))
    case Fresh =>
      if head != command.expectedRevision
      then (before, Refused(RevisionConflict(command.sessionId, command.expectedRevision, head)))
      else
        var written := Numbered(command.batch, head);
        var reached := head + |command.batch|;
        (Journaled(before.session.(revision := reached), before.events + written), Committed(written, reached))
  }

  datatype Operation = Create(session: Session) | Append(command: AppendEvents) | Delete(sessionId: SessionId)

  datatype Answer = Done | Wrote(appended: Appended) | Failed(error: StorageError)

  function Step(kind: Kind, store: Store, operation: Operation): (Store, Answer) {
    match operation
    case Create(session) =>
      if session.id in store then (store, Failed(SessionAlreadyExists(session.id)))
      else (store[session.id := Journaled(session, [])], Done)
    case Delete(sessionId) => (store - {sessionId}, Done)
    case Append(command) =>
      if command.sessionId !in store then (store, Wrote(Refused(SessionNotFound(command.sessionId))))
      else
        var (after, appended) := AppendTo(kind, store[command.sessionId], command);
        (store[command.sessionId := after], Wrote(appended))
  }

  function Run(kind: Kind, store: Store, operations: seq<Operation>): (Store, seq<Answer>)
    decreases |operations|
  {
    if operations == [] then (store, [])
    else
      var (next, answer) := Step(kind, store, operations[0]);
      var (end, answers) := Run(kind, next, operations[1..]);
      (end, [answer] + answers)
  }

  // ---------------------------------------------------------------- what every run keeps

  /** Revisions follow each other and end at the head. */
  ghost predicate Contiguous(journaled: Journaled) {
    && |journaled.events| <= journaled.session.revision
    && (forall i :: 0 <= i < |journaled.events| ==>
          journaled.events[i].revision == journaled.session.revision - |journaled.events| + i + 1)
  }

  /** Revisions are exactly 1 up to the head. */
  ghost predicate FromOne(journaled: Journaled) {
    Contiguous(journaled) && |journaled.events| == journaled.session.revision
  }

  ghost predicate UniqueIds(journal: seq<Stored>) {
    forall i, j :: 0 <= i < j < |journal| ==> journal[i].event.id != journal[j].event.id
  }

  ghost predicate Legal(operation: Operation) {
    operation.Append? ==> DistinctIds(operation.command.batch)
  }

  ghost predicate StartsAtZero(operation: Operation) {
    operation.Create? ==> operation.session.revision == 0
  }

  lemma {:induction false} AppendKeepsContiguous(kind: Kind, before: Journaled, command: AppendEvents)
    requires Contiguous(before)
    ensures Contiguous(AppendTo(kind, before, command).0)
    ensures FromOne(before) ==> FromOne(AppendTo(kind, before, command).0)
  {
  }

  ghost predicate InOrder(store: Store) {
    forall id :: id in store ==> Contiguous(store[id]) && store[id].session.id == id
  }

  ghost predicate AllFromOne(store: Store) {
    forall id :: id in store ==> FromOne(store[id])
  }

  /**
   * Over every run of operations revisions follow each other up to the head, and are exactly 1 up to
   * the head when every session is created at zero.
   */
  lemma {:induction false} RunsStayContiguous(kind: Kind, store: Store, operations: seq<Operation>)
    requires InOrder(store)
    ensures InOrder(Run(kind, store, operations).0)
    ensures AllFromOne(store) && (forall i :: 0 <= i < |operations| ==> StartsAtZero(operations[i])) ==>
      AllFromOne(Run(kind, store, operations).0)
    decreases |operations|
  {
    if operations != [] {
      var operation := operations[0];
      if operation.Append? && operation.command.sessionId in store {
        AppendKeepsContiguous(kind, store[operation.command.sessionId], operation.command);
      }
      var next := Step(kind, store, operation).0;
      assert InOrder(next);
      assert AllFromOne(store) && StartsAtZero(operation) ==> AllFromOne(next);
      RunsStayContiguous(kind, next, operations[1..]);
    }
  }

  /** What is refused is not written. */
  lemma {:induction false} RefusedChangesNothing(kind: Kind, before: Journaled, command: AppendEvents)
    requires AppendTo(kind, before, command).1.Refused?
    ensures AppendTo(kind, before, command).0 == before
  {
  }

  // ---------------------------------------------------------------- retries

  /** The event is in the journal, under its id and with the same content. */
  ghost predicate WrittenAs(journal: seq<Stored>, event: Event) {
    exists stored :: stored in journal && stored.event.id == event.id && stored.event.fact == event.fact
  }

  ghost predicate Written(journal: seq<Stored>, batch: seq<Event>) {
    forall event :: event in batch ==> WrittenAs(journal, event)
  }

  lemma {:induction false} OnlyOneUnderAnId(journal: seq<Stored>, stored: Stored)
    requires UniqueIds(journal) && stored in journal
    ensures LastWith(journal, stored.event.id) == Some(stored)
  {
    var last := |journal| - 1;
    if journal[last] != stored {
      assert stored in journal[..last];
      OnlyOneUnderAnId(journal[..last], stored);
    }
  }

  lemma {:induction false} WrittenIsFoundInMemory(journal: seq<Stored>, batch: seq<Event>)
    requires UniqueIds(journal) && Written(journal, batch)
    ensures var found := FindInMemory(journal, batch);
      && found.Replayed? && |found.events| == |batch|
      && (forall i :: 0 <= i < |batch| ==>
            && found.events[i] in journal
            && found.events[i].event.id == batch[i].id
            && found.events[i].event.fact == batch[i].fact)
    decreases |batch|
  {
    if batch != [] {
      assert WrittenAs(journal, batch[0]);
      var stored :| stored in journal && stored.event.id == batch[0].id && stored.event.fact == batch[0].fact;
      OnlyOneUnderAnId(journal, stored);
      WrittenIsFoundInMemory(journal, batch[1..]);
    }
  }

  lemma {:induction false} WrittenNeverClashes(journal: seq<Stored>, batch: seq<Event>)
    requires UniqueIds(journal) && Written(journal, batch)
    ensures FirstClash(journal, batch).None?
    decreases |batch|
  {
    if batch != [] {
      assert WrittenAs(journal, batch[0]);
      var stored :| stored in journal && stored.event.id == batch[0].id && stored.event.fact == batch[0].fact;
      OnlyOneUnderAnId(journal, stored);
      WrittenNeverClashes(journal, batch[1..]);
    }
  }

  lemma {:induction false} ByIdsSelects(journal: seq<Stored>, ids: set<EventId>)
    ensures forall stored :: stored in ByIds(journal, ids) <==> stored in journal && stored.event.id in ids
    ensures UniqueIds(journal) ==> UniqueIds(ByIds(journal, ids))
  {
    if journal != [] {
      var before, last := journal[..|journal| - 1], journal[|journal| - 1];
      assert journal == before + [last];
      ByIdsSelects(before, ids);
      if UniqueIds(journal) {
        forall i, j | 0 <= i < j < |ByIds(journal, ids)|
          ensures ByIds(journal, ids)[i].event.id != ByIds(journal, ids)[j].event.id
        {
          assert ByIds(journal, ids)[i] in before;
        }
      }
    }
  }

  /** ORDER BY revision is the order of the journal. */
  lemma {:induction false} ByIdsInRevisionOrder(journal: seq<Stored>, ids: set<EventId>)
    requires Ordered(journal)
    ensures Ordered(ByIds(journal, ids))
  {
    if journal != [] {
      var before, last := journal[..|journal| - 1], journal[|journal| - 1];
      ByIdsInRevisionOrder(before, ids);
      ByIdsSelects(before, ids);
      var selected := ByIds(before, ids);
      forall i | 0 <= i < |selected| ensures selected[i].revision < last.revision {
        assert selected[i] in before;
      }
    }
  }

  /**
   * A retry of a batch already written, at whatever revision the caller expects, writes nothing and
   * answers the stored events: in batch order in memory, in revision order in SQLite.
   */
  lemma {:induction false} RetryAnswersWhatWasWritten(kind: Kind, before: Journaled, command: AppendEvents)
    requires UniqueIds(before.events) && Written(before.events, command.batch) && command.batch != []
    ensures var (after, appended) := AppendTo(kind, before, command);
      && after == before
      && appended.Committed? && appended.revision == before.session.revision
      && (forall stored :: stored in appended.events <==> stored in before.events && stored.event.id in Ids(command.batch))
  {
    var batch := command.batch;
    match kind {
      case InMemory =>
        WrittenIsFoundInMemory(before.events, batch);
        var found := FindInMemory(before.events, batch).events;
        forall stored | stored in before.events && stored.event.id in Ids(batch) ensures stored in found {
          var i :| 0 <= i < |batch| && batch[i].id == stored.event.id;
          OnlyOneUnderAnId(before.events, stored);
          OnlyOneUnderAnId(before.events, found[i]);
        }
        forall stored | stored in found ensures stored in before.events && stored.event.id in Ids(batch) {
          var i :| 0 <= i < |found| && found[i] == stored;
          assert batch[i] in batch;
        }
      case Sqlite =>
        WrittenNeverClashes(before.events, batch);
        assert batch[0].id in Ids(batch);
        assert WrittenAs(before.events, batch[0]);
        assert batch[0].id in KnownIds(before.events);
        ByIdsSelects(before.events, Ids(batch));
    }
  }

  // ---------------------------------------------------------------- where the storages differ

  lemma {:induction false} FreshIdsStayUnique(before: Journaled, command: AppendEvents)
    requires UniqueIds(before.events) && DistinctIds(command.batch)
    requires Ids(command.batch) !! KnownIds(before.events)
    ensures UniqueIds(before.events + Numbered(command.batch, before.session.revision))
  {
    var written := Numbered(command.batch, before.session.revision);
    var n := |before.events|;
    forall i, j | 0 <= i < j < n + |written|
      ensures (before.events + written)[i].event.id != (before.events + written)[j].event.id
    {
      if i < n <= j {
        assert before.events[i].event.id in KnownIds(before.events);
        assert command.batch[j - n].id in Ids(command.batch);
      }
    }
  }

  /** SQLite keeps event ids unique, whatever it is asked to write. */
  lemma {:induction false} TableKeepsIdsUnique(before: Journaled, command: AppendEvents)
    requires UniqueIds(before.events) && DistinctIds(command.batch)
    ensures UniqueIds(AppendTo(Sqlite, before, command).0.events)
  {
    if FindInTable(before.events, command.batch).Fresh? {
      FreshIdsStayUnique(before, command);
    }
  }

  lemma {:induction false} TableRunsStayUnique(store: Store, operations: seq<Operation>)
    requires forall id :: id in store ==> UniqueIds(store[id].events)
    requires forall i :: 0 <= i < |operations| ==> Legal(operations[i])
    ensures forall id :: id in Run(Sqlite, store, operations).0 ==> UniqueIds(Run(Sqlite, store, operations).0[id].events)
    decreases |operations|
  {
    if operations != [] {
      var operation := operations[0];
      assert Legal(operation);
      if operation.Append? && operation.command.sessionId in store {
        TableKeepsIdsUnique(store[operation.command.sessionId], operation.command);
      }
      TableRunsStayUnique(Step(Sqlite, store, operation).0, operations[1..]);
    }
  }

  /** A batch that mixes ids already written with ids that are not. */
  ghost predicate Mixed(journal: seq<Stored>, batch: seq<Event>) {
    !(Ids(batch) <= KnownIds(journal)) && !(Ids(batch) !! KnownIds(journal))
  }

  /** The known events in front of the first unknown one, if any, all carry what was written. */
  ghost predicate AgreesUntilUnknown(journal: seq<Stored>, batch: seq<Event>) {
    if batch == [] || batch[0].id !in KnownIds(journal) then true
    else LastWith(journal, batch[0].id).value.event.fact == batch[0].fact && AgreesUntilUnknown(journal, batch[1..])
  }

  lemma {:induction false} FreshInMemory(journal: seq<Stored>, batch: seq<Event>)
    ensures FindInMemory(journal, batch).Fresh?
      <==> AgreesUntilUnknown(journal, batch) && !(Ids(batch) <= KnownIds(journal))
    decreases |batch|
  {
    if batch != [] {
      FreshInMemory(journal, batch[1..]);
      assert batch[0].id in Ids(batch);
      assert Ids(batch) == {batch[0].id} + Ids(batch[1..]) by {
        assert batch == [batch[0]] + batch[1..];
      }
    }
  }

  /**
   * In memory an append breaks the uniqueness of ids exactly when it lands at the head, its batch is
   * mixed, and what it repeats before its first new id was written the same way.
   */
  lemma {:induction false} MemoryDuplicatesExactly(before: Journaled, command: AppendEvents)
    requires UniqueIds(before.events) && DistinctIds(command.batch)
    ensures !UniqueIds(AppendTo(InMemory, before, command).0.events)
      <==> && before.session.revision == command.expectedRevision
           && Mixed(before.events, command.batch)
           && AgreesUntilUnknown(before.events, command.batch)
  {
    var journal, batch := before.events, command.batch;
    FreshInMemory(journal, batch);
    if FindInMemory(journal, batch).Fresh? && before.session.revision == command.expectedRevision {
      if Ids(batch) !! KnownIds(journal) {
        FreshIdsStayUnique(before, command);
      } else {
        var written := Numbered(batch, before.session.revision);
        var id :| id in Ids(batch) && id in KnownIds(journal);
        var i :| 0 <= i < |batch| && batch[i].id == id;
        var j :| 0 <= j < |journal| && journal[j].event.id == id;
        assert (journal + written)[j].event.id == (journal + written)[|journal| + i].event.id;
      }
    }
  }

  /** And it does: behind one event, a batch of that event and another is written whole. */
  lemma {:induction false} MixedIsWrittenInMemory() returns (before: Journaled, command: AppendEvents)
    ensures FromOne(before) && UniqueIds(before.events) && DistinctIds(command.batch)
    ensures |before.events| == 1 && |command.batch| == 2 && command.batch[0] == before.events[0].event
    ensures var (after, appended) := AppendTo(InMemory, before, command);
      && appended.Committed? && FromOne(after) && |after.events| == 3
      && after.events[0].event == after.events[1].event
  {
    var first, second := Event("e-1", "r", Recorded("run.started")), Event("e-2", "r", Recorded("run.ended"));
    before := Journaled(Session("s", "support", 1), [Stored(1, first)]);
    command := AppendEvents("s", 1, [first, second]);
    GivesUpAtTheSecond(before.events, command.batch);
  }

  lemma {:induction false} GivesUpAtTheSecond(journal: seq<Stored>, batch: seq<Event>)
    requires |journal| == 1 && |batch| == 2 && journal[0].event == batch[0] && batch[1].id != batch[0].id
    ensures FindInMemory(journal, batch) == Fresh
  {
    assert KnownIds(journal) == {batch[0].id};
    OnlyOneUnderAnId(journal, journal[0]);
    assert batch[1..][0] == batch[1];
  }

  /** SQLite refuses every mixed batch as a corrupted journal. */
  lemma {:induction false} TableRefusesMixed(journal: seq<Stored>, batch: seq<Event>)
    requires !(Ids(batch) <= KnownIds(journal))
    ensures FirstClash(journal, batch).Some?
    decreases |batch|
  {
    if batch != [] && batch[0].id in KnownIds(journal) {
      assert Ids(batch) == {batch[0].id} + Ids(batch[1..]) by {
        assert batch == [batch[0]] + batch[1..];
      }
      TableRefusesMixed(journal, batch[1..]);
    }
  }

  lemma {:induction false} MixedIsCorruptedInTable(before: Journaled, command: AppendEvents)
    requires Mixed(before.events, command.batch)
    ensures AppendTo(Sqlite, before, command).1.Refused?
    ensures AppendTo(Sqlite, before, command).1.error.JournalCorrupted?
  {
    TableRefusesMixed(before.events, command.batch);
  }

  // ---------------------------------------------------------------- where they agree

  /** The same answer, up to the order of replayed events. */
  ghost predicate Alike(one: Answer, other: Answer) {
    if one.Wrote? && one.appended.Committed? then
      && other.Wrote? && other.appended.Committed?
      && one.appended.revision == other.appended.revision
      && multiset(one.appended.events) == multiset(other.appended.events)
    else one == other
  }

  /** An append of events that are all known, or all new. */
  ghost predicate Whole(store: Store, operation: Operation) {
    operation.Append? && operation.command.sessionId in store ==>
      !Mixed(store[operation.command.sessionId].events, operation.command.batch)
  }

  lemma {:induction false} ClashesAlike(journal: seq<Stored>, batch: seq<Event>)
    requires Ids(batch) <= KnownIds(journal)
    ensures match FirstClash(journal, batch)
      case Some(corruption) => FindInMemory(journal, batch) == Clash(corruption)
      case None => FindInMemory(journal, batch).Replayed? && |FindInMemory(journal, batch).events| == |batch|
    decreases |batch|
  {
    if batch != [] {
      assert batch[0].id in Ids(batch);
      assert Ids(batch[1..]) <= Ids(batch);
      ClashesAlike(journal, batch[1..]);
    }
  }

  lemma {:induction false} ReplaysInBatchOrder(journal: seq<Stored>, batch: seq<Event>)
    requires FindInMemory(journal, batch).Replayed?
    ensures var found := FindInMemory(journal, batch).events;
      && |found| == |batch|
      && (forall i :: 0 <= i < |batch| ==> found[i] in journal && found[i].event.id == batch[i].id)
    decreases |batch|
  {
    if batch != [] {
      ReplaysInBatchOrder(journal, batch[1..]);
    }
  }

  lemma {:induction false} SameElementsSameBag(one: seq<Stored>, other: seq<Stored>)
    requires UniqueIds(one) && UniqueIds(other)
    requires forall stored :: stored in one <==> stored in other
    ensures multiset(one) == multiset(other)
  {
    forall stored ensures multiset(one)[stored] == multiset(other)[stored] {
      AtMostOnce(one, stored);
      AtMostOnce(other, stored);
    }
  }

  lemma {:induction false} AtMostOnce(journal: seq<Stored>, stored: Stored)
    requires UniqueIds(journal)
    ensures multiset(journal)[stored] == if stored in journal then 1 else 0
  {
    if journal != [] {
      var last := |journal| - 1;
      AtMostOnce(journal[..last], stored);
      assert journal == journal[..last] + [journal[last]];
      assert forall i :: 0 <= i < last ==> journal[i] != journal[last];
    }
  }

  /** On a batch that is wholly known or wholly new the two storages write the same and answer alike. */
  lemma {:induction false} AppendsAlike(before: Journaled, command: AppendEvents)
    requires UniqueIds(before.events) && DistinctIds(command.batch)
    requires !Mixed(before.events, command.batch)
    ensures AppendTo(InMemory, before, command).0 == AppendTo(Sqlite, before, command).0
    ensures Alike(Wrote(AppendTo(InMemory, before, command).1), Wrote(AppendTo(Sqlite, before, command).1))
  {
    var journal, batch := before.events, command.batch;
    FreshInMemory(journal, batch);
    if batch == [] {
      assert Ids(batch) == {};
    } else if Ids(batch) <= KnownIds(journal) {
      assert batch[0].id in Ids(batch);
      ClashesAlike(journal, batch);
      if FirstClash(journal, batch).None? {
        ReplaysInBatchOrder(journal, batch);
        RepliesAlike(journal, batch);
      }
    } else {
      assert batch[0].id in Ids(batch);
    }
  }

  lemma {:induction false} RepliesAlike(journal: seq<Stored>, batch: seq<Event>)
    requires UniqueIds(journal) && DistinctIds(batch)
    requires FindInMemory(journal, batch).Replayed?
    ensures multiset(FindInMemory(journal, batch).events) == multiset(ByIds(journal, Ids(batch)))
  {
    ReplaysInBatchOrder(journal, batch);
    ByIdsSelects(journal, Ids(batch));
    var found := FindInMemory(journal, batch).events;
    forall stored ensures stored in found <==> stored in ByIds(journal, Ids(batch)) {
      if stored in found {
        var i :| 0 <= i < |found| && found[i] == stored;
        assert batch[i] in batch;
      }
      if stored in journal && stored.event.id in Ids(batch) {
        var i :| 0 <= i < |batch| && batch[i].id == stored.event.id;
        OnlyOneUnderAnId(journal, stored);
        OnlyOneUnderAnId(journal, found[i]);
      }
    }
    SameElementsSameBag(found, ByIds(journal, Ids(batch)));
  }

  /** Every append of a run finds its batch wholly known or wholly new. */
  ghost predicate AllWhole(store: Store, operations: seq<Operation>)
    decreases |operations|
  {
    operations == []
    || (Whole(store, operations[0]) && AllWhole(Step(Sqlite, store, operations[0]).0, operations[1..]))
  }

  /** Over runs without mixed batches the two storages are the same storage, up to the order of replies. */
  lemma {:induction false} RunsAlike(store: Store, operations: seq<Operation>)
    requires forall id :: id in store ==> UniqueIds(store[id].events)
    requires forall i :: 0 <= i < |operations| ==> Legal(operations[i])
    requires AllWhole(store, operations)
    ensures Run(InMemory, store, operations).0 == Run(Sqlite, store, operations).0
    ensures |Run(InMemory, store, operations).1| == |Run(Sqlite, store, operations).1| == |operations|
    ensures forall i :: 0 <= i < |operations| ==>
      Alike(Run(InMemory, store, operations).1[i], Run(Sqlite, store, operations).1[i])
    decreases |operations|
  {
    if operations != [] {
      var operation := operations[0];
      assert Legal(operation);
      if operation.Append? && operation.command.sessionId in store {
        AppendsAlike(store[operation.command.sessionId], operation.command);
        TableKeepsIdsUnique(store[operation.command.sessionId], operation.command);
      }
      assert Step(InMemory, store, operation).0 == Step(Sqlite, store, operation).0;
      assert Alike(Step(InMemory, store, operation).1, Step(Sqlite, store, operation).1);
      RunsAlike(Step(Sqlite, store, operation).0, operations[1..]);
    }
  }
}
