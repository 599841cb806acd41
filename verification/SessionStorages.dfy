/** A compacted prefix kept so that the next call does not compact the same history again. */
module ContextCheckpoints {
  import opened Options
  import opened ContextBlocks
  import opened OldestFirstCompaction

  /** The digest of a stable prefix: a digest tells prefixes apart, so it is the prefix itself. */
  type PrefixDigest = Prefix

  datatype Checkpoint = Checkpoint(
    sessionId: string,
    coveredRevision: nat,
    strategy: string,
    strategyVersion: nat,
    prefixDigest: PrefixDigest,
    blocks: seq<Block>)
  {
    predicate SameKey(other: Checkpoint) {
      coveredRevision == other.coveredRevision && strategyVersion == other.strategyVersion
    }

    predicate IsUsableAt(name: string, version: nat, expectedPrefix: PrefixDigest) {
      strategy == name && strategyVersion == version && prefixDigest == expectedPrefix
    }
  }

  /** A map that keeps the order in which its keys first came. */
  function Put(checkpoints: seq<Checkpoint>, checkpoint: Checkpoint): seq<Checkpoint> {
    if checkpoints == [] then [checkpoint]
    else if checkpoints[0].SameKey(checkpoint) then [checkpoint] + checkpoints[1..]
    else [checkpoints[0]] + Put(checkpoints[1..], checkpoint)
  }

  /** A saved checkpoint is there, in the place of the one of its revision and version; every other one stays. */
  lemma {:induction false} SavedIsKept(checkpoints: seq<Checkpoint>, checkpoint: Checkpoint)
    ensures checkpoint in Put(checkpoints, checkpoint)
    ensures forall other :: other in checkpoints && other !in Put(checkpoints, checkpoint) ==>
      other.coveredRevision == checkpoint.coveredRevision && other.strategyVersion == checkpoint.strategyVersion
    ensures forall other :: other in Put(checkpoints, checkpoint) ==> other == checkpoint || other in checkpoints
  {
    if checkpoints != [] {
      var put := Put(checkpoints, checkpoint);
      assert checkpoints == [checkpoints[0]] + checkpoints[1..];
      if checkpoints[0].SameKey(checkpoint) {
        assert put == [checkpoint] + checkpoints[1..];
      } else {
        SavedIsKept(checkpoints[1..], checkpoint);
      }
    }
  }

  /** The checkpoint the search settles on. */
  function Furthest(checkpoints: seq<Checkpoint>): Option<Checkpoint> {
    if checkpoints == [] then None
    else
      var before := Furthest(checkpoints[..|checkpoints| - 1]);
      var last := checkpoints[|checkpoints| - 1];
      if before.None? || last.coveredRevision > before.value.coveredRevision then Some(last) else before
  }

  /** It covers the most journal, and came first of those that do. */
  lemma {:induction false} FurthestCoversMost(checkpoints: seq<Checkpoint>) returns (at: nat)
    requires checkpoints != []
    ensures at < |checkpoints| && Furthest(checkpoints) == Some(checkpoints[at])
    ensures forall i :: 0 <= i < |checkpoints| ==> checkpoints[i].coveredRevision <= checkpoints[at].coveredRevision
    ensures forall i :: 0 <= i < at ==> checkpoints[i].coveredRevision < checkpoints[at].coveredRevision
  {
    var last := |checkpoints| - 1;
    var rest := checkpoints[..last];
    at := last;
    if rest != [] {
      var best := FurthestCoversMost(rest);
      assert forall i :: 0 <= i < last ==> checkpoints[i] == rest[i];
      if checkpoints[last].coveredRevision <= rest[best].coveredRevision {
        at := best;
      }
    }
  }
}

/**
 * Sessions kept in the process
 * (packages/core/src/adapters/storage/in-memory-session-storage.adapter.ts).
 */
module InMemoryStorage {
  import opened Options
  import opened Journal
  import opened SessionJournals
  import opened Snapshots
  import opened ContextCheckpoints

  datatype Record = Record(
    session: Session,
    events: seq<Stored>,
    checkpoints: seq<Checkpoint>,
    snapshot: Option<Snapshot>)

  /** Gives each event of a batch the next revision. */
  method WithRevisions(batch: seq<Event>, head: nat) returns (committed: seq<Stored>)
    ensures committed == Numbered(batch, head)
  {
    committed := [];
    var revision := head;
    for i := 0 to |batch|
      invariant revision == head + i
      invariant committed == Numbered(batch, head)[..i]
    {
      revision := revision + 1;
      committed := committed + [Stored(revision, batch[i])];
    }
    assert committed == Numbered(batch, head);
  }

  class InMemorySessionStorage {
    var records: map<SessionId, Record>

    constructor ()
      ensures Contents() == map[]
    {
      records := map[];
    }

    /** The sessions and their journals, which is what the contract of a storage speaks of. */
    ghost function Contents(): Store
      reads this
    {
      map id | id in records :: Journaled(records[id].session, records[id].events)
    }

    method Create(session: Session) returns (answer: Answer)
      modifies this
      ensures Contents() == Step(InMemory, old(Contents()), Operation.Create(session)).0
      ensures answer == Step(InMemory, old(Contents()), Operation.Create(session)).1
      ensures answer.Done? ==> records == old(records)[session.id := Record(session, [], [], None)]
      ensures answer.Failed? ==> records == old(records)
    {
      if session.id in records {
        return Failed(SessionAlreadyExists(session.id));
      }
      records := records[session.id := Record(session, [], [], None)];
      return Done;
    }

    method Find(id: SessionId) returns (session: Option<Session>)
      ensures session == if id in Contents() then Some(Contents()[id].session) else None
    {
      session := if id in records then Some(records[id].session) else None;
    }

    /** One append, already alone within its session. */
    method Append(command: AppendEvents) returns (appended: Appended)
      modifies this
      ensures Contents() == Step(InMemory, old(Contents()), Operation.Append(command)).0
      ensures Wrote(appended) == Step(InMemory, old(Contents()), Operation.Append(command)).1
      ensures records.Keys == old(records).Keys
      ensures forall id :: id in records ==>
        records[id].checkpoints == old(records)[id].checkpoints && records[id].snapshot == old(records)[id].snapshot
      ensures forall id :: id in records && id != command.sessionId ==> records[id] == old(records)[id]
    {
      if command.sessionId !in records {
        return Refused(SessionNotFound(command.sessionId));
      }
      var record := records[command.sessionId];
      var head := record.session.revision;
      var found := FindReplay(record, command);
      match found {
        case Clash(corruption) => return Refused(JournalCorrupted(command.sessionId, corruption));
        case Replayed(events) => return Committed(events, head);
        case Fresh =>
      }
      if head != command.expectedRevision {
        return Refused(RevisionConflict(command.sessionId, command.expectedRevision, head));
      }
      var committed := WithRevisions(command.batch, head);
      var reached := head + |committed|;
      records := records[command.sessionId :=
        record.(events := record.events + committed, session := record.session.(revision := reached))];
      return Committed(committed, reached);
    }

    method FindReplay(record: Record, command: AppendEvents) returns (found: Replay)
      ensures found == SessionJournals.Find(InMemory, record.events, command.batch)
    {
      var known: map<EventId, Stored> := map[];
      for i := 0 to |record.events|
        invariant forall id :: id in known <==> id in KnownIds(record.events[..i])
        invariant forall id :: id in known ==> LastWith(record.events[..i], id) == Some(known[id])
      {
        assert record.events[..i + 1][..i] == record.events[..i];
        KnownOneMore(record.events, i);
        known := known[record.events[i].event.id := record.events[i]];
      }
      assert record.events[..|record.events|] == record.events;
      var batch := command.batch;
      var matches: seq<Stored> := [];
      assert batch[0..] == batch;
      for i := 0 to |batch|
        invariant FindInMemory(record.events, batch)
               == match FindInMemory(record.events, batch[i..])
                  case Replayed(rest) => Replayed(matches + rest)
                  case other => other
        invariant |matches| == i
      {
        assert batch[i..][1..] == batch[i + 1..];
        if batch[i].id !in known {
          return Fresh;
        }
        var stored := known[batch[i].id];
        if stored.event.fact != batch[i].fact {
          return Clash(WrittenDifferently(batch[i].id));
        }
        matches := matches + [stored];
      }
      found := if |matches| == 0 then Fresh else Replayed(matches);
    }

    method Delete(id: SessionId)
      modifies this
      ensures Contents() == Step(InMemory, old(Contents()), Operation.Delete(id)).0
      ensures records == old(records) - {id}
    {
      records := records - {id};
    }

    method ReadEvents(id: SessionId, afterRevision: nat) returns (events: Option<seq<Stored>>)
      ensures events == if id in Contents() then Some(After(Contents()[id].events, afterRevision)) else None
    {
      if id !in records {
        return None;
      }
      var journal := records[id].events;
      var read: seq<Stored> := [];
      assert journal[0..] == journal;
      for i := 0 to |journal|
        invariant After(journal, afterRevision) == read + After(journal[i..], afterRevision)
      {
        assert journal[i..][1..] == journal[i + 1..];
        if journal[i].revision > afterRevision {
          read := read + [journal[i]];
        }
      }
      assert read + After(journal[|journal|..], afterRevision) == read;
      return Some(read);
    }

    /** Answers whether the session is there to keep the snapshot. */
    method SaveSnapshot(snapshot: Snapshot) returns (saved: bool)
      modifies this
      ensures saved == (snapshot.sessionId in old(records))
      ensures records == if saved
        then old(records)[snapshot.sessionId := old(records)[snapshot.sessionId].(snapshot := Some(snapshot))]
        else old(records)
      ensures Contents() == old(Contents())
    {
      saved := snapshot.sessionId in records;
      if saved {
        records := records[snapshot.sessionId := records[snapshot.sessionId].(snapshot := Some(snapshot))];
      }
    }

    method FindSnapshot(id: SessionId) returns (snapshot: Option<Snapshot>)
      ensures snapshot == if id in records then records[id].snapshot else None
    {
      snapshot := if id in records then records[id].snapshot else None;
    }

    method SaveCheckpoint(checkpoint: Checkpoint) returns (saved: bool)
      modifies this
      ensures saved == (checkpoint.sessionId in old(records))
      ensures records == if saved
        then old(records)[checkpoint.sessionId :=
          old(records)[checkpoint.sessionId].(checkpoints := Put(old(records)[checkpoint.sessionId].checkpoints, checkpoint))]
        else old(records)
      ensures Contents() == old(Contents())
    {
      saved := checkpoint.sessionId in records;
      if saved {
        var record := records[checkpoint.sessionId];
        records := records[checkpoint.sessionId := record.(checkpoints := Put(record.checkpoints, checkpoint))];
      }
    }

    method FindCheckpoint(id: SessionId) returns (checkpoint: Option<Checkpoint>)
      ensures checkpoint == if id in records then Furthest(records[id].checkpoints) else None
    {
      if id !in records {
        return None;
      }
      var checkpoints := records[id].checkpoints;
      var furthest: Option<Checkpoint> := None;
      for i := 0 to |checkpoints|
        invariant furthest == Furthest(checkpoints[..i])
      {
        assert checkpoints[..i + 1][..i] == checkpoints[..i];
        if furthest.None? || checkpoints[i].coveredRevision > furthest.value.coveredRevision {
          furthest := Some(checkpoints[i]);
        }
      }
      assert checkpoints[..|checkpoints|] == checkpoints;
      return furthest;
    }
  }
}

/**
 * Sessions in three tables of a SQLite database
 * (packages/core/src/adapters/storage/sqlite/sqlite-session-storage.adapter.ts and
 * event-repository.adapter.ts). A statement either happens or breaks a constraint; a transaction
 * puts the tables back when anything in it fails.
 */
module SqliteStorage {
  import opened Options
  import opened Journal
  import opened SessionJournals
  import opened Snapshots

  /** The rows of `session_events`, each session's in the order they were inserted. */
  type EventTable = map<SessionId, seq<Stored>>

  /** What `WHERE session_id = ?` selects. */
  function EventsOf(table: EventTable, id: SessionId): seq<Stored> {
    if id in table then table[id] else []
  }

  /** The primary key on the revision and the unique index on the id let a row in. */
  predicate Accepts(events: seq<Stored>, stored: Stored) {
    forall i :: 0 <= i < |events| ==>
      events[i].revision != stored.revision && events[i].event.id != stored.event.id
  }

  /** The sessions and journals two tables hold together. */
  ghost function Joined(sessions: map<SessionId, Session>, table: EventTable): Store {
    map id | id in sessions :: Journaled(sessions[id], EventsOf(table, id))
  }

  ghost predicate Sound(session: Session, events: seq<Stored>) {
    Contiguous(Journaled(session, events)) && UniqueIds(events)
  }

  /** No event outlives its session, revisions end at the head, and ids are unique. */
  ghost predicate Tidy(sessions: map<SessionId, Session>, table: EventTable) {
    && table.Keys <= sessions.Keys
    && (forall id :: id in sessions ==> Sound(sessions[id], EventsOf(table, id)))
  }

  /** Events written at the head of a sound journal leave it sound. */
  lemma {:induction false} WritingStaysSound(session: Session, events: seq<Stored>, command: AppendEvents)
    requires Sound(session, events) && DistinctIds(command.batch) && Ids(command.batch) !! KnownIds(events)
    ensures Sound(session.(revision := session.revision + |command.batch|), events + Numbered(command.batch, session.revision))
  {
    FreshIdsStayUnique(Journaled(session, events), command);
  }

  /** A batch whose rows no constraint stops, each of which reads back as it was written. */
  ghost predicate Writable(journal: seq<Stored>, written: seq<Stored>) {
    forall i :: 0 <= i < |written| ==> WritableAt(journal + written[..i], written[i])
  }

  ghost predicate WritableAt(before: seq<Stored>, stored: Stored) {
    Accepts(before, stored) && ByIds(before + [stored], {stored.event.id}) == [stored]
  }

  lemma {:induction false} WritesNext(
    journal: seq<Stored>, written: seq<Stored>, read: seq<Stored>, i: nat, rows: seq<Stored>, stored: Stored)
    requires Writable(journal, written) && i < |written| && read == written[..i]
    requires rows == journal + read && stored == written[i]
    ensures WritableAt(rows, stored)
    ensures rows + [stored] == journal + (read + [stored])
    ensures read + [stored] == written[..i + 1]
  {
    assert WritableAt(journal + written[..i], written[i]);
  }

  lemma {:induction false} FreshIsWritable(session: Session, journal: seq<Stored>, batch: seq<Event>)
    requires Sound(session, journal) && DistinctIds(batch) && Ids(batch) !! KnownIds(journal)
    ensures Writable(journal, Numbered(batch, session.revision))
  {
    var written := Numbered(batch, session.revision);
    forall i | 0 <= i < |written| ensures WritableAt(journal + written[..i], written[i]) {
      NewIdAndRevision(session, journal, batch, i);
      ReadsBack(journal + written[..i], written[i]);
    }
  }

  lemma {:induction false} NewIdAndRevision(session: Session, journal: seq<Stored>, batch: seq<Event>, i: nat)
    requires Sound(session, journal) && DistinctIds(batch) && Ids(batch) !! KnownIds(journal) && i < |batch|
    ensures Accepts(journal + Numbered(batch, session.revision)[..i], Numbered(batch, session.revision)[i])
  {
    var written := Numbered(batch, session.revision);
    var before := journal + written[..i];
    assert batch[i].id in Ids(batch);
    forall k | 0 <= k < |before|
      ensures before[k].revision != written[i].revision && before[k].event.id != written[i].event.id
    {
      if k < |journal| {
        assert before[k] == journal[k];
        assert journal[k].event.id in KnownIds(journal);
      } else {
        assert before[k] == written[k - |journal|];
      }
    }
  }

  lemma {:induction false} ReadsBack(before: seq<Stored>, stored: Stored)
    requires Accepts(before, stored)
    ensures ByIds(before + [stored], {stored.event.id}) == [stored]
  {
    assert (before + [stored])[..|before|] == before;
    NoneSelected(before, stored.event.id);
  }

  lemma {:induction false} NoneSelected(journal: seq<Stored>, id: EventId)
    requires forall i :: 0 <= i < |journal| ==> journal[i].event.id != id
    ensures ByIds(journal, {id}) == []
  {
    if journal != [] {
      NoneSelected(journal[..|journal| - 1], id);
    }
  }

  lemma {:induction false} StaysTidy(sessions: map<SessionId, Session>, table: EventTable, id: SessionId, session: Session, events: seq<Stored>)
    requires Tidy(sessions, table) && id in sessions && Sound(session, events)
    ensures Tidy(sessions[id := session], table[id := events])
  {
    assert forall other :: other in sessions ==> Sound(sessions[other], EventsOf(table, other));
  }

  lemma {:induction false} JoinedAt(sessions: map<SessionId, Session>, table: EventTable, id: SessionId, after: Journaled)
    requires id in sessions
    ensures Joined(sessions[id := after.session], table[id := after.events]) == Joined(sessions, table)[id := after]
  {
  }

  lemma {:induction false} FreshWorks(sessions: map<SessionId, Session>, table: EventTable, command: AppendEvents)
    requires Tidy(sessions, table) && DistinctIds(command.batch) && command.sessionId in sessions
    requires Ids(command.batch) !! KnownIds(EventsOf(table, command.sessionId))
    ensures Writable(EventsOf(table, command.sessionId), Numbered(command.batch, sessions[command.sessionId].revision))
  {
    var id := command.sessionId;
    assert Sound(sessions[id], EventsOf(table, id));
    FreshIsWritable(sessions[id], EventsOf(table, id), command.batch);
  }

  lemma {:induction false} FreshStaysTidy(
    sessions: map<SessionId, Session>, table: EventTable, command: AppendEvents, reached: Session, rows: seq<Stored>)
    requires Tidy(sessions, table) && DistinctIds(command.batch) && command.sessionId in sessions
    requires Ids(command.batch) !! KnownIds(EventsOf(table, command.sessionId))
    requires var session := sessions[command.sessionId];
      && reached == session.(revision := session.revision + |command.batch|)
      && rows == EventsOf(table, command.sessionId) + Numbered(command.batch, session.revision)
    ensures Tidy(sessions[command.sessionId := reached], table[command.sessionId := rows])
  {
    var id := command.sessionId;
    assert Sound(sessions[id], EventsOf(table, id));
    WritingStaysSound(sessions[id], EventsOf(table, id), command);
    StaysTidy(sessions, table, id, reached, rows);
  }

  /** What the tables hold once a batch of new events is written at the head of its session. */
  ghost predicate Holds(sessions: map<SessionId, Session>, table: EventTable, store: Store) {
    Tidy(sessions, table) && Joined(sessions, table) == store
  }

  function Extended(session: Session, events: seq<Stored>, batch: seq<Event>): Journaled {
    Journaled(session.(revision := session.revision + |batch|), events + Numbered(batch, session.revision))
  }

  lemma {:induction false} FreshLands(
    sessions: map<SessionId, Session>, table: EventTable, command: AppendEvents, after: Journaled)
    requires Tidy(sessions, table) && DistinctIds(command.batch) && command.sessionId in sessions
    requires Ids(command.batch) !! KnownIds(EventsOf(table, command.sessionId))
    requires after == Extended(sessions[command.sessionId], EventsOf(table, command.sessionId), command.batch)
    ensures Holds(sessions[command.sessionId := after.session], table[command.sessionId := after.events],
      Joined(sessions, table)[command.sessionId := after])
  {
    FreshStaysTidy(sessions, table, command, after.session, after.events);
    JoinedAt(sessions, table, command.sessionId, after);
  }

  /** The tables after the rows of a batch are written and the session has advanced. */
  method WrittenTables(sessions: map<SessionId, Session>, table: EventTable, command: AppendEvents)
    returns (appended: Appended, sessionsAfter: map<SessionId, Session>, tableAfter: EventTable)
    requires Tidy(sessions, table) && DistinctIds(command.batch) && command.sessionId in sessions
    requires Ids(command.batch) !! KnownIds(EventsOf(table, command.sessionId))
    ensures var session := sessions[command.sessionId];
      && appended == Committed(Numbered(command.batch, session.revision), session.revision + |command.batch|)
      && Holds(sessionsAfter, tableAfter, Joined(sessions, table)[command.sessionId :=
           Extended(session, EventsOf(table, command.sessionId), command.batch)])
  {
    var id := command.sessionId;
    var session := sessions[id];
    FreshWorks(sessions, table, command);
    var rows, committed := WriteRows(EventsOf(table, id), session.revision, command.batch);
    if committed.None? {
      return Refused(ConstraintViolated), sessions, table;
    }
    var reached := session.(revision := session.revision + |command.batch|);
    FreshLands(sessions, table, command, Journaled(reached, rows));
    return Committed(committed.value, reached.revision), sessions[id := reached], table[id := rows];
  }

  class SqliteSessionStorage {
    var sessions: map<SessionId, Session>
    var events: EventTable
    var snapshots: map<SessionId, Snapshot>

    ghost function Contents(): Store
      reads this
    {
      Joined(sessions, events)
    }

    ghost predicate Valid()
      reads this
    {
      Tidy(sessions, events)
    }

    constructor ()
      ensures Valid() && Contents() == map[]
    {
      sessions, events, snapshots := map[], map[], map[];
    }

    method Create(session: Session) returns (answer: Answer)
      requires Valid()
      modifies this
      ensures Valid() && snapshots == old(snapshots)
      ensures Contents() == Step(Sqlite, old(Contents()), Operation.Create(session)).0
      ensures answer == Step(Sqlite, old(Contents()), Operation.Create(session)).1
    {
      if session.id in sessions {
        return Failed(SessionAlreadyExists(session.id));
      }
      sessions := sessions[session.id := session];
      return Done;
    }

    method Append(command: AppendEvents) returns (appended: Appended)
      requires Valid() && DistinctIds(command.batch)
      modifies this
      ensures Valid() && snapshots == old(snapshots)
      ensures Contents() == Step(Sqlite, old(Contents()), Operation.Append(command)).0
      ensures Wrote(appended) == Step(Sqlite, old(Contents()), Operation.Append(command)).1
      ensures appended.Refused? ==> sessions == old(sessions) && events == old(events)
    {
      var sessionsBefore, eventsBefore := sessions, events;
      appended := AppendWithin(command);
      if appended.Refused? {
        sessions, events := sessionsBefore, eventsBefore;
      }
    }

    method AppendWithin(command: AppendEvents) returns (appended: Appended)
      requires Valid() && DistinctIds(command.batch)
      modifies this
      ensures snapshots == old(snapshots)
      ensures appended.Committed? ==>
        Valid() && Contents() == Step(Sqlite, old(Contents()), Operation.Append(command)).0
      ensures Wrote(appended) == Step(Sqlite, old(Contents()), Operation.Append(command)).1
      ensures appended.Refused? ==>
        old(Contents()) == Step(Sqlite, old(Contents()), Operation.Append(command)).0
    {
      var id := command.sessionId;
      if id !in sessions {
        return Refused(SessionNotFound(id));
      }
      var session := sessions[id];
      var found := FindReplay(command);
      match found {
        case Clash(corruption) => return Refused(JournalCorrupted(id, corruption));
        case Replayed(replayed) => return Committed(replayed, session.revision);
        case Fresh =>
      }
      if session.revision != command.expectedRevision {
        return Refused(RevisionConflict(id, command.expectedRevision, session.revision));
      }
      appended := WriteFresh(command, session);
    }

    /** The part of an append that writes. */
    method WriteFresh(command: AppendEvents, session: Session) returns (appended: Appended)
      requires Valid() && DistinctIds(command.batch)
      requires command.sessionId in sessions && session == sessions[command.sessionId]
      requires Ids(command.batch) !! KnownIds(EventsOf(events, command.sessionId))
      modifies this
      ensures Valid() && snapshots == old(snapshots)
      ensures appended == Committed(Numbered(command.batch, session.revision), session.revision + |command.batch|)
      ensures Contents() == old(Contents())[command.sessionId :=
        Journaled(session.(revision := session.revision + |command.batch|),
                  EventsOf(old(events), command.sessionId) + Numbered(command.batch, session.revision))]
    {
      var sessionsAfter, eventsAfter;
      appended, sessionsAfter, eventsAfter := WrittenTables(sessions, events, command);
      sessions, events := sessionsAfter, eventsAfter;
    }

    method FindReplay(command: AppendEvents) returns (found: Replay)
      ensures found == FindInTable(EventsOf(events, command.sessionId), command.batch)
    {
      var journal, ids := EventsOf(events, command.sessionId), Ids(command.batch);
      var written := WrittenPayloads(journal, ids);
      if |written| == 0 {
        forall id | id in ids ensures id !in KnownIds(journal) {
          assert id !in written;
        }
        return Fresh;
      }
      var clash := FindClash(journal, command.batch, written);
      if clash.Some? {
        return Clash(clash.value);
      }
      var replayed := SelectByIds(journal, ids);
      return Replayed(replayed);
    }

    method Delete(id: SessionId)
      requires Valid()
      modifies this
      ensures Valid() && snapshots == old(snapshots) - {id}
      ensures Contents() == Step(Sqlite, old(Contents()), Operation.Delete(id)).0
    {
      events := events - {id};
      snapshots := snapshots - {id};
      sessions := sessions - {id};
      assert forall other :: other in sessions ==> Sound(sessions[other], EventsOf(events, other));
    }

    method ReadEvents(id: SessionId, afterRevision: nat) returns (read: Option<seq<Stored>>)
      ensures read == if id in Contents() then Some(After(Contents()[id].events, afterRevision)) else None
    {
      if id !in sessions {
        return None;
      }
      return Some(After(EventsOf(events, id), afterRevision));
    }

    method SaveSnapshot(snapshot: Snapshot) returns (saved: bool)
      modifies this`snapshots
      ensures saved == (snapshot.sessionId in sessions)
      ensures snapshots == if saved then old(snapshots)[snapshot.sessionId := snapshot] else old(snapshots)
    {
      saved := snapshot.sessionId in sessions;
      if saved {
        snapshots := snapshots[snapshot.sessionId := snapshot];
      }
    }
  }

  /** The first event of a batch that was not written, or was written differently. */
  method FindClash(ghost journal: seq<Stored>, batch: seq<Event>, written: map<EventId, Fact>)
    returns (clash: Option<Corruption>)
    requires written.Keys == Ids(batch) * KnownIds(journal)
    requires forall id :: id in written ==> written[id] == LastWith(journal, id).value.event.fact
    ensures clash == FirstClash(journal, batch)
  {
    assert batch[0..] == batch;
    for i := 0 to |batch|
      invariant FirstClash(journal, batch) == FirstClash(journal, batch[i..])
    {
      assert batch[i..][1..] == batch[i + 1..];
      assert batch[i].id in Ids(batch);
      if batch[i].id !in written {
        return Some(PartiallyWritten);
      }
      if written[batch[i].id] != batch[i].fact {
        return Some(WrittenDifferently(batch[i].id));
      }
    }
    return None;
  }

  /** Inserts one row per event and selects each back; no constraint ever stands in the way. */
  method WriteRows(before: seq<Stored>, head: nat, batch: seq<Event>)
    returns (rows: seq<Stored>, committed: Option<seq<Stored>>)
    requires Writable(before, Numbered(batch, head))
    ensures rows == before + Numbered(batch, head)
    ensures committed == Some(Numbered(batch, head))
  {
    ghost var written := Numbered(batch, head);
    rows := before;
    var read: seq<Stored> := [];
    for i := 0 to |batch|
      invariant read == written[..i] && rows == before + read
    {
      var stored := Stored(head + 1 + i, batch[i]);
      WritesNext(before, written, read, i, rows, stored);
      var inserted, back := InsertRow(rows, stored);
      if inserted.None? {
        return rows, None;
      }
      rows := inserted.value;
      read := read + back;
    }
    assert read == written;
    committed := Some(read);
  }

  /** One `INSERT`, which the constraints may refuse, and the `SELECT` that reads the row back. */
  method InsertRow(rows: seq<Stored>, stored: Stored) returns (inserted: Option<seq<Stored>>, back: seq<Stored>)
    ensures inserted == if Accepts(rows, stored) then Some(rows + [stored]) else None
    ensures inserted.Some? ==> back == ByIds(rows + [stored], {stored.event.id})
  {
    if !Accepts(rows, stored) {
      return None, [];
    }
    inserted := Some(rows + [stored]);
    back := SelectByIds(rows + [stored], {stored.event.id});
  }

  /** What `SELECT ... WHERE event_id IN (...) ORDER BY revision ASC` answers over the rows of a session. */
  method SelectByIds(rows: seq<Stored>, ids: set<EventId>) returns (selected: seq<Stored>)
    ensures selected == ByIds(rows, ids)
    ensures forall row :: row in selected <==> row in rows && row.event.id in ids
    ensures Ordered(rows) ==> Ordered(selected)
  {
    selected := [];
    for i := 0 to |rows|
      invariant selected == ByIds(rows[..i], ids)
    {
      assert rows[..i + 1][..i] == rows[..i];
      if rows[i].event.id in ids {
        selected := selected + [rows[i]];
      }
    }
    assert rows[..|rows|] == rows;
    ByIdsSelects(rows, ids);
    if Ordered(rows) {
      ByIdsInRevisionOrder(rows, ids);
    }
  }

  /** The facts written under some ids. */
  method WrittenPayloads(journal: seq<Stored>, ids: set<EventId>) returns (written: map<EventId, Fact>)
    ensures written.Keys == ids * KnownIds(journal)
    ensures forall id :: id in written ==> written[id] == LastWith(journal, id).value.event.fact
  {
    written := map[];
    for i := 0 to |journal|
      invariant forall id :: id in written <==> id in ids && id in KnownIds(journal[..i])
      invariant forall id :: id in written ==> written[id] == LastWith(journal[..i], id).value.event.fact
    {
      assert journal[..i + 1][..i] == journal[..i];
      KnownOneMore(journal, i);
      if journal[i].event.id in ids {
        written := written[journal[i].event.id := journal[i].event.fact];
      }
    }
    assert journal[..|journal|] == journal;
  }
}
