/**
 * Attachments kept in memory within a budget of bytes, the oldest evicted first
 * (packages/core/src/runtime/artifact/attachment-cache.service.ts).
 */
module AttachmentCaches {
  import opened Options

  type Key = string

  datatype Part = Part(bytes: nat, content: string)

  datatype Entry = Entry(key: Key, part: Part)

  function KeyOf(sessionId: string, id: string): Key {
    sessionId + "/" + id
  }

  predicate BelongsTo(key: Key, sessionId: string) {
    sessionId + "/" <= key
  }

  // ---------------------------------------------------------------- a map that remembers the order of insertion

  function IndexOf(entries: seq<Entry>, key: Key): (at: nat)
    ensures at <= |entries| && (at < |entries| ==> entries[at].key == key)
    ensures forall i :: 0 <= i < at ==> entries[i].key != key
  {
    if entries == [] || entries[0].key == key then 0 else 1 + IndexOf(entries[1..], key)
  }

  /** Setting a key that is present keeps its place. */
  function Put(entries: seq<Entry>, entry: Entry): seq<Entry> {
    var at := IndexOf(entries, entry.key);
    if at < |entries| then entries[at := entry] else entries + [entry]
  }

  function Sum(entries: seq<Entry>): nat
    decreases |entries|
  {
    if entries == [] then 0 else Sum(entries[..|entries| - 1]) + entries[|entries| - 1].part.bytes
  }

  ghost predicate DistinctKeys(entries: seq<Entry>) {
    forall i, j :: 0 <= i < j < |entries| ==> entries[i].key != entries[j].key
  }

  // ---------------------------------------------------------------- the operations

  /** What is resident, and how many bytes the cache counts. */
  datatype State = State(entries: seq<Entry>, bytes: int)

  const EMPTY := State([], 0)

  function Evicted(state: State, incoming: nat, maxBytes: nat): State
    decreases |state.entries|
  {
    if state.bytes + incoming <= maxBytes || state.entries == [] then state
    else Evicted(State(state.entries[1..], state.bytes - state.entries[0].part.bytes), incoming, maxBytes)
  }

  function Remembered(state: State, entry: Entry, maxBytes: nat): State {
    if entry.part.bytes > maxBytes then state
    else
      var room := Evicted(state, entry.part.bytes, maxBytes);
      State(Put(room.entries, entry), room.bytes + entry.part.bytes)
  }

  /** The entries of a session gone, one after the other, and their bytes with them. */
  function Forgotten(state: State, sessionId: string): State
    decreases |state.entries|
  {
    if state.entries == [] then state
    else
      var last := |state.entries| - 1;
      var before := Forgotten(State(state.entries[..last], state.bytes), sessionId);
      if BelongsTo(state.entries[last].key, sessionId)
      then State(before.entries, before.bytes - state.entries[last].part.bytes)
      else State(before.entries + [state.entries[last]], before.bytes)
  }

  datatype Operation = Remember(sessionId: string, id: string, part: Part) | Forget(sessionId: string)

  function Applied(state: State, operation: Operation, maxBytes: nat): State {
    match operation
    case Remember(sessionId, id, part) => Remembered(state, Entry(KeyOf(sessionId, id), part), maxBytes)
    case Forget(sessionId) => Forgotten(state, sessionId)
  }

  function Run(operations: seq<Operation>, maxBytes: nat): State
    decreases |operations|
  {
    if operations == [] then EMPTY
    else Applied(Run(operations[..|operations| - 1], maxBytes), operations[|operations| - 1], maxBytes)
  }

  // ---------------------------------------------------------------- eviction

  lemma {:induction false} SumOfBoth(some: seq<Entry>, more: seq<Entry>)
    ensures Sum(some + more) == Sum(some) + Sum(more)
    decreases |more|
  {
    if more == [] {
      assert some + more == some;
    } else {
      assert (some + more)[..|some + more| - 1] == some + more[..|more| - 1];
      SumOfBoth(some, more[..|more| - 1]);
    }
  }

  lemma {:induction false} SumFrom(entries: seq<Entry>, at: nat)
    requires at <= |entries|
    ensures Sum(entries) == Sum(entries[..at]) + Sum(entries[at..])
  {
    assert entries == entries[..at] + entries[at..];
    SumOfBoth(entries[..at], entries[at..]);
  }

  lemma {:induction false} SumOfOne(entry: Entry)
    ensures Sum([entry]) == entry.part.bytes
  {
    var entries: seq<Entry> := [entry];
    assert entries[..0] == [];
  }

  /** The oldest go first, and no more of them than the incoming part needs. */
  lemma {:induction false} EvictsOldestFirst(state: State, incoming: nat, maxBytes: nat) returns (gone: nat)
    ensures gone <= |state.entries|
    ensures Evicted(state, incoming, maxBytes) == State(state.entries[gone..], state.bytes - Sum(state.entries[..gone]))
    ensures state.bytes - Sum(state.entries[..gone]) + incoming <= maxBytes || gone == |state.entries|
    ensures gone > 0 ==> state.bytes - Sum(state.entries[..gone - 1]) + incoming > maxBytes
    decreases |state.entries|
  {
    gone := 0;
    if state.bytes + incoming > maxBytes && state.entries != [] {
      var oldest, rest := state.entries[0], state.entries[1..];
      var more := EvictsOldestFirst(State(rest, state.bytes - oldest.part.bytes), incoming, maxBytes);
      gone := more + 1;
      OldestAndMore(state.entries, more);
      if more > 0 {
        OldestAndMore(state.entries, more - 1);
      }
    }
  }

  lemma {:induction false} OldestAndMore(entries: seq<Entry>, more: nat)
    requires more < |entries|
    ensures entries[1..][more..] == entries[more + 1..]
    ensures Sum(entries[..more + 1]) == entries[0].part.bytes + Sum(entries[1..][..more])
  {
    assert entries[..more + 1] == [entries[0]] + entries[1..][..more];
    SumOfBoth([entries[0]], entries[1..][..more]);
    SumOfOne(entries[0]);
  }

  // ---------------------------------------------------------------- what every run keeps

  lemma {:induction false} PutAdds(entries: seq<Entry>, entry: Entry)
    requires DistinctKeys(entries)
    ensures DistinctKeys(Put(entries, entry))
    ensures Sum(Put(entries, entry)) + Replaced(entries, entry.key) == Sum(entries) + entry.part.bytes
  {
    var at, put := IndexOf(entries, entry.key), Put(entries, entry);
    if at < |entries| {
      SumOfUpdate(entries, at, entry);
    } else {
      assert put[..|entries|] == entries;
    }
  }

  lemma {:induction false} SumOfUpdate(entries: seq<Entry>, at: nat, entry: Entry)
    requires at < |entries|
    ensures Sum(entries[at := entry]) + entries[at].part.bytes == Sum(entries) + entry.part.bytes
    decreases |entries|
  {
    var last := |entries| - 1;
    if at < last {
      SumOfUpdate(entries[..last], at, entry);
      assert entries[at := entry][..last] == entries[..last][at := entry];
    } else {
      assert entries[at := entry][..last] == entries[..last];
    }
  }

  /** The bytes of a part that a key already held, which no one takes off the count. */
  function Replaced(entries: seq<Entry>, key: Key): nat {
    var at := IndexOf(entries, key);
    if at < |entries| then entries[at].part.bytes else 0
  }

  /** What an operation adds to the count for good. */
  function Leaked(state: State, operation: Operation, maxBytes: nat): nat {
    if operation.Forget? || operation.part.bytes > maxBytes then 0
    else
      Replaced(Evicted(state, operation.part.bytes, maxBytes).entries, KeyOf(operation.sessionId, operation.id))
  }

  function TotalLeak(operations: seq<Operation>, maxBytes: nat): nat
    decreases |operations|
  {
    if operations == [] then 0
    else
      var front, last := operations[..|operations| - 1], operations[|operations| - 1];
      TotalLeak(front, maxBytes) + Leaked(Run(front, maxBytes), last, maxBytes)
  }

  /** The count is what is resident and what has leaked; what is resident is within the budget. */
  ghost predicate Sound(state: State, leak: nat, maxBytes: nat) {
    && DistinctKeys(state.entries)
    && state.bytes == Sum(state.entries) + leak
    && Sum(state.entries) <= maxBytes
  }

  lemma {:induction false} EvictingKeeps(state: State, leak: nat, incoming: nat, maxBytes: nat)
    requires Sound(state, leak, maxBytes) && incoming <= maxBytes
    ensures Sound(Evicted(state, incoming, maxBytes), leak, maxBytes)
    ensures Sum(Evicted(state, incoming, maxBytes).entries) + incoming <= maxBytes
  {
    var gone := EvictsOldestFirst(state, incoming, maxBytes);
    SumFrom(state.entries, gone);
  }

  lemma {:induction false} RememberingKeeps(state: State, leak: nat, entry: Entry, maxBytes: nat)
    requires Sound(state, leak, maxBytes) && entry.part.bytes <= maxBytes
    ensures Sound(Remembered(state, entry, maxBytes),
      leak + Replaced(Evicted(state, entry.part.bytes, maxBytes).entries, entry.key), maxBytes)
  {
    EvictingKeeps(state, leak, entry.part.bytes, maxBytes);
    PutAdds(Evicted(state, entry.part.bytes, maxBytes).entries, entry);
  }

  /** Forgetting takes out exactly the entries under the session's prefix. */
  lemma {:induction false} ForgettingIsExact(state: State, sessionId: string, entry: Entry)
    ensures entry in Forgotten(state, sessionId).entries <==> entry in state.entries && !BelongsTo(entry.key, sessionId)
    decreases |state.entries|
  {
    if state.entries != [] {
      var last := |state.entries| - 1;
      assert state.entries == state.entries[..last] + [state.entries[last]];
      ForgettingIsExact(State(state.entries[..last], state.bytes), sessionId, entry);
    }
  }

  lemma {:induction false} ForgettingCounts(state: State, sessionId: string)
    ensures var after := Forgotten(state, sessionId);
      state.bytes - Sum(state.entries) == after.bytes - Sum(after.entries) && Sum(after.entries) <= Sum(state.entries)
    decreases |state.entries|
  {
    if state.entries != [] {
      var last := |state.entries| - 1;
      var front := State(state.entries[..last], state.bytes);
      ForgettingCounts(front, sessionId);
      SumOfBoth(Forgotten(front, sessionId).entries, [state.entries[last]]);
      SumOfOne(state.entries[last]);
    }
  }

  lemma {:induction false} ForgettingKeepsKeysDistinct(state: State, sessionId: string)
    requires DistinctKeys(state.entries)
    ensures DistinctKeys(Forgotten(state, sessionId).entries)
    decreases |state.entries|
  {
    if state.entries != [] {
      var last := |state.entries| - 1;
      var front := State(state.entries[..last], state.bytes);
      var kept := Forgotten(front, sessionId).entries;
      ForgettingKeepsKeysDistinct(front, sessionId);
      forall i | 0 <= i < |kept|
        ensures kept[i].key != state.entries[last].key
      {
        ForgettingIsExact(front, sessionId, kept[i]);
        var at :| 0 <= at < last && state.entries[..last][at] == kept[i];
        assert state.entries[at] == kept[i];
      }
    }
  }

  /** Over every run: within the budget, and counted exactly but for the parts remembered over others. */
  lemma {:induction false} RunsStaySound(operations: seq<Operation>, maxBytes: nat)
    ensures Sound(Run(operations, maxBytes), TotalLeak(operations, maxBytes), maxBytes)
    decreases |operations|
  {
    if operations != [] {
      var front, last := operations[..|operations| - 1], operations[|operations| - 1];
      RunsStaySound(front, maxBytes);
      var state, leak := Run(front, maxBytes), TotalLeak(front, maxBytes);
      match last
      case Remember(sessionId, id, part) =>
        if part.bytes <= maxBytes {
          RememberingKeeps(state, leak, Entry(KeyOf(sessionId, id), part), maxBytes);
        }
      case Forget(sessionId) =>
        ForgettingCounts(state, sessionId);
        ForgettingKeepsKeysDistinct(state, sessionId);
    }
  }

  /** And parts are: the one remembered over another under its key stays counted, though only one is resident. */
  lemma {:induction false} RememberingAgainLeaks(sessionId: string, id: string, part: Part, maxBytes: nat)
    returns (operations: seq<Operation>)
    requires 0 < part.bytes && 2 * part.bytes <= maxBytes
    ensures operations == [Operation.Remember(sessionId, id, part), Operation.Remember(sessionId, id, part)]
    ensures TotalLeak(operations, maxBytes) == part.bytes
    ensures Run(operations, maxBytes) == State([Entry(KeyOf(sessionId, id), part)], 2 * part.bytes)
  {
    var again := Operation.Remember(sessionId, id, part);
    var once := [again];
    operations := once + [again];
    assert operations[..1] == once && once[..0] == [];
    assert Run([], maxBytes) == EMPTY && TotalLeak([], maxBytes) == 0;
    assert Run(once, maxBytes) == Applied(EMPTY, again, maxBytes);
    assert Run(once, maxBytes) == State([Entry(KeyOf(sessionId, id), part)], part.bytes);
    assert Leaked(EMPTY, again, maxBytes) == 0;
    assert TotalLeak(once, maxBytes) == 0;
  }

  /** Once what leaked leaves no room for a part, remembering that part evicts everything else. */
  lemma {:induction false} LeakCostsTheBudget(state: State, leak: nat, entry: Entry, maxBytes: nat)
    requires Sound(state, leak, maxBytes) && entry.part.bytes <= maxBytes < leak + entry.part.bytes
    ensures Remembered(state, entry, maxBytes).entries == [entry]
  {
    var gone := EvictsOldestFirst(state, entry.part.bytes, maxBytes);
    SumFrom(state.entries, gone);
  }

  // ---------------------------------------------------------------- the oldest really are the oldest

  /** Room for a part is made before the entry at this place has to go. */
  ghost predicate Outlasts(state: State, at: nat, incoming: nat, maxBytes: nat)
    requires at <= |state.entries|
  {
    state.bytes - Sum(state.entries[..at]) + incoming <= maxBytes
  }

  /** A key is present and outlasts the making of room. */
  ghost predicate Stayed(state: State, key: Key, incoming: nat, maxBytes: nat) {
    exists at :: 0 <= at < |state.entries| && state.entries[at].key == key && Outlasts(state, at, incoming, maxBytes)
  }

  /** The operation that last made a key present, in a run after which it is. */
  ghost function Arrived(operations: seq<Operation>, maxBytes: nat, key: Key): int
    decreases |operations|
  {
    if operations == [] then -1
    else
      var front, last := operations[..|operations| - 1], operations[|operations| - 1];
      if last.Remember? && KeyOf(last.sessionId, last.id) == key && last.part.bytes <= maxBytes then
        if Stayed(Run(front, maxBytes), key, last.part.bytes, maxBytes) then Arrived(front, maxBytes, key) else |front|
      else Arrived(front, maxBytes, key)
  }

  /** Entries stand in the order in which their keys came, each brought by an operation that remembered it. */
  ghost predicate InArrivalOrder(entries: seq<Entry>, operations: seq<Operation>, maxBytes: nat) {
    && (forall i, j :: 0 <= i < j < |entries| ==>
          Arrived(operations, maxBytes, entries[i].key) < Arrived(operations, maxBytes, entries[j].key))
    && (forall i :: 0 <= i < |entries| ==> Brought(operations, maxBytes, entries[i].key))
  }

  ghost predicate Brought(operations: seq<Operation>, maxBytes: nat, key: Key) {
    var at := Arrived(operations, maxBytes, key);
    && 0 <= at < |operations|
    && operations[at].Remember? && KeyOf(operations[at].sessionId, operations[at].id) == key
  }

  lemma {:induction false} SumGrows(entries: seq<Entry>, few: nat, many: nat)
    requires few <= many <= |entries|
    ensures Sum(entries[..few]) <= Sum(entries[..many])
  {
    assert entries[..many][..few] == entries[..few];
    SumFrom(entries[..many], few);
  }

  /** Exactly the entries that room is made before stay. */
  lemma {:induction false} StaysExactly(state: State, incoming: nat, maxBytes: nat) returns (gone: nat)
    requires Sum(state.entries) <= state.bytes
    ensures gone <= |state.entries| && Evicted(state, incoming, maxBytes).entries == state.entries[gone..]
    ensures forall at :: 0 <= at < |state.entries| ==> (gone <= at <==> Outlasts(state, at, incoming, maxBytes))
  {
    gone := EvictsOldestFirst(state, incoming, maxBytes);
    forall at | 0 <= at < |state.entries|
      ensures gone <= at <==> Outlasts(state, at, incoming, maxBytes)
    {
      if gone <= at {
        SumGrows(state.entries, gone, at);
      } else {
        SumGrows(state.entries, at, gone - 1);
      }
    }
  }

  lemma {:induction false} ForgettingKeepsArrivals(
    state: State, sessionId: string, operations: seq<Operation>, maxBytes: nat)
    requires InArrivalOrder(state.entries, operations, maxBytes)
    ensures InArrivalOrder(Forgotten(state, sessionId).entries, operations, maxBytes)
    decreases |state.entries|
  {
    if state.entries != [] {
      var last := |state.entries| - 1;
      var front := State(state.entries[..last], state.bytes);
      var kept := Forgotten(front, sessionId).entries;
      assert InArrivalOrder(front.entries, operations, maxBytes);
      ForgettingKeepsArrivals(front, sessionId, operations, maxBytes);
      ArrivedBefore(state, last, kept, sessionId, operations, maxBytes);
      if !BelongsTo(state.entries[last].key, sessionId) {
        LastInOrder(kept, state.entries[last], operations, maxBytes);
      }
    }
  }

  lemma {:induction false} ArrivedBefore(
    state: State, last: nat, kept: seq<Entry>, sessionId: string, operations: seq<Operation>, maxBytes: nat)
    requires last < |state.entries| && InArrivalOrder(state.entries, operations, maxBytes)
    requires kept == Forgotten(State(state.entries[..last], state.bytes), sessionId).entries
    ensures Brought(operations, maxBytes, state.entries[last].key)
    ensures forall i :: 0 <= i < |kept| ==>
      Arrived(operations, maxBytes, kept[i].key) < Arrived(operations, maxBytes, state.entries[last].key)
  {
    forall i | 0 <= i < |kept|
      ensures Arrived(operations, maxBytes, kept[i].key) < Arrived(operations, maxBytes, state.entries[last].key)
    {
      ForgettingIsExact(State(state.entries[..last], state.bytes), sessionId, kept[i]);
      var at :| 0 <= at < last && state.entries[..last][at] == kept[i];
      assert state.entries[at] == kept[i];
    }
  }

  lemma {:induction false} LastInOrder(entries: seq<Entry>, entry: Entry, operations: seq<Operation>, maxBytes: nat)
    requires InArrivalOrder(entries, operations, maxBytes) && Brought(operations, maxBytes, entry.key)
    requires forall i :: 0 <= i < |entries| ==>
      Arrived(operations, maxBytes, entries[i].key) < Arrived(operations, maxBytes, entry.key)
    ensures InArrivalOrder(entries + [entry], operations, maxBytes)
  {
  }

  /** Operations that bring no key leave all arrivals as they were. */
  lemma {:induction false} ArrivalsStay(entries: seq<Entry>, front: seq<Operation>, last: Operation, maxBytes: nat)
    requires InArrivalOrder(entries, front, maxBytes)
    requires forall i :: 0 <= i < |entries| ==>
      Arrived(front + [last], maxBytes, entries[i].key) == Arrived(front, maxBytes, entries[i].key)
    ensures InArrivalOrder(entries, front + [last], maxBytes)
  {
    forall i | 0 <= i < |entries|
      ensures Brought(front + [last], maxBytes, entries[i].key)
    {
      assert Brought(front, maxBytes, entries[i].key);
    }
  }

  lemma {:induction false} ArrivedOneMore(front: seq<Operation>, last: Operation, maxBytes: nat, key: Key)
    ensures Run(front + [last], maxBytes) == Applied(Run(front, maxBytes), last, maxBytes)
    ensures Arrived(front + [last], maxBytes, key) ==
      if last.Remember? && KeyOf(last.sessionId, last.id) == key && last.part.bytes <= maxBytes
         && !Stayed(Run(front, maxBytes), key, last.part.bytes, maxBytes)
      then |front| else Arrived(front, maxBytes, key)
  {
    assert (front + [last])[..|front|] == front;
  }

  lemma {:induction false} RememberingKeepsArrivals(front: seq<Operation>, last: Operation, maxBytes: nat)
    requires last.Remember? && last.part.bytes <= maxBytes
    requires InArrivalOrder(Run(front, maxBytes).entries, front, maxBytes)
    ensures InArrivalOrder(Run(front + [last], maxBytes).entries, front + [last], maxBytes)
  {
    var state, key := Run(front, maxBytes), KeyOf(last.sessionId, last.id);
    RunsStaySound(front, maxBytes);
    var gone := StaysExactly(state, last.part.bytes, maxBytes);
    var left := state.entries[gone..];
    var at, after := IndexOf(left, key), Run(front + [last], maxBytes).entries;
    ArrivedOneMore(front, last, maxBytes, key);
    forall i | 0 <= i < |left|
      ensures left[i].key != key || at < |left|
      ensures Arrived(front + [last], maxBytes, left[i].key) == Arrived(front, maxBytes, left[i].key)
    {
      ArrivedOneMore(front, last, maxBytes, left[i].key);
      assert left[i] == state.entries[gone + i];
    }
    assert InArrivalOrder(left, front, maxBytes) by {
      assert forall i :: 0 <= i < |left| ==> left[i] == state.entries[gone + i];
    }
    ArrivalsStay(left, front, last, maxBytes);
    if at < |left| {
      SameKeysSameArrivals(left, after, front + [last], maxBytes);
    } else {
      assert after == left + [Entry(key, last.part)];
      NewestArrives(state, left, gone, front, last, maxBytes);
    }
  }

  lemma {:induction false} SameKeysSameArrivals(some: seq<Entry>, more: seq<Entry>, operations: seq<Operation>, maxBytes: nat)
    requires |some| == |more| && forall i :: 0 <= i < |some| ==> some[i].key == more[i].key
    requires InArrivalOrder(some, operations, maxBytes)
    ensures InArrivalOrder(more, operations, maxBytes)
  {
    forall i | 0 <= i < |more|
      ensures Brought(operations, maxBytes, more[i].key)
    {
      assert Brought(operations, maxBytes, some[i].key);
    }
  }

  lemma {:induction false} NewestArrives(
    state: State, left: seq<Entry>, gone: nat, front: seq<Operation>, last: Operation, maxBytes: nat)
    requires state == Run(front, maxBytes) && gone <= |state.entries| && left == state.entries[gone..]
    requires last.Remember? && last.part.bytes <= maxBytes
    requires forall at :: 0 <= at < |state.entries| ==> (gone <= at <==> Outlasts(state, at, last.part.bytes, maxBytes))
    requires forall i :: 0 <= i < |left| ==> left[i].key != KeyOf(last.sessionId, last.id)
    requires InArrivalOrder(left, front, maxBytes) && InArrivalOrder(left, front + [last], maxBytes)
    ensures InArrivalOrder(left + [Entry(KeyOf(last.sessionId, last.id), last.part)], front + [last], maxBytes)
  {
    var key := KeyOf(last.sessionId, last.id);
    ArrivedOneMore(front, last, maxBytes, key);
    assert forall at :: gone <= at < |state.entries| ==> state.entries[at] == left[at - gone];
    assert Arrived(front + [last], maxBytes, key) == |front|;
    forall i | 0 <= i < |left|
      ensures Arrived(front + [last], maxBytes, left[i].key) < |front|
    {
      ArrivedOneMore(front, last, maxBytes, left[i].key);
      assert Brought(front, maxBytes, left[i].key);
    }
    assert Brought(front + [last], maxBytes, key);
    LastInOrder(left, Entry(key, last.part), front + [last], maxBytes);
  }

  /** After every run, resident parts stand in the order of the operations that last made them present. */
  lemma {:induction false} RunsKeepArrivalOrder(operations: seq<Operation>, maxBytes: nat)
    ensures InArrivalOrder(Run(operations, maxBytes).entries, operations, maxBytes)
    decreases |operations|
  {
    if operations != [] {
      var front, last := operations[..|operations| - 1], operations[|operations| - 1];
      assert operations == front + [last];
      RunsKeepArrivalOrder(front, maxBytes);
      var state := Run(front, maxBytes);
      if last.Remember? && last.part.bytes <= maxBytes {
        RememberingKeepsArrivals(front, last, maxBytes);
      } else {
        var after := Run(operations, maxBytes).entries;
        if last.Forget? {
          ForgettingKeepsArrivals(state, last.sessionId, front, maxBytes);
        }
        forall i | 0 <= i < |after|
          ensures Arrived(front + [last], maxBytes, after[i].key) == Arrived(front, maxBytes, after[i].key)
        {
          ArrivedOneMore(front, last, maxBytes, after[i].key);
        }
        ArrivalsStay(after, front, last, maxBytes);
      }
    }
  }

  /**
   * Remembering a part that fits at all: it is found as it was remembered; of the others exactly those stay
   * that room is made before, as they were; and whatever goes came before everything that stays.
   */
  lemma {:induction false} RemembersExactly(
    operations: seq<Operation>, sessionId: string, id: string, part: Part, maxBytes: nat)
    requires part.bytes <= maxBytes
    ensures var before, key := Run(operations, maxBytes), KeyOf(sessionId, id);
      var after := Remembered(before, Entry(key, part), maxBytes).entries;
      && Entry(key, part) in after
      && (forall entry :: entry in after && entry.key == key ==> entry.part == part)
      && (forall entry :: entry in after && entry.key != key ==> entry in before.entries)
      && (forall at :: 0 <= at < |before.entries| && before.entries[at].key != key ==>
            (before.entries[at] in after <==> Outlasts(before, at, part.bytes, maxBytes)))
      && (forall gone, stays :: Lost(before, after, key, gone) && Survives(after, key, stays) ==>
            Arrived(operations, maxBytes, gone.key) < Arrived(operations, maxBytes, stays.key))
  {
    var before, entry := Run(operations, maxBytes), Entry(KeyOf(sessionId, id), part);
    RunsStaySound(operations, maxBytes);
    RunsKeepArrivalOrder(operations, maxBytes);
    var gone := StaysExactly(before, part.bytes, maxBytes);
    var after := Remembered(before, entry, maxBytes).entries;
    PutsExactly(before.entries, gone, entry, after);
    forall lost, stays | Lost(before, after, entry.key, lost) && Survives(after, entry.key, stays)
      ensures Arrived(operations, maxBytes, lost.key) < Arrived(operations, maxBytes, stays.key)
    {
      LostBefore(before.entries, gone, entry, after, lost, stays, operations, maxBytes);
    }
  }

  /** An entry other than the one remembered that is gone. */
  ghost predicate Lost(before: State, after: seq<Entry>, key: Key, entry: Entry) {
    entry in before.entries && entry !in after && entry.key != key
  }

  /** An entry other than the one remembered that is still there. */
  ghost predicate Survives(after: seq<Entry>, key: Key, entry: Entry) {
    entry in after && entry.key != key
  }

  lemma {:induction false} LostBefore(entries: seq<Entry>, gone: nat, entry: Entry, after: seq<Entry>,
    lost: Entry, stays: Entry, operations: seq<Operation>, maxBytes: nat)
    requires DistinctKeys(entries) && InArrivalOrder(entries, operations, maxBytes)
    requires gone <= |entries| && after == Put(entries[gone..], entry)
    requires lost in entries && lost !in after && lost.key != entry.key
    requires stays in after && stays.key != entry.key
    ensures Arrived(operations, maxBytes, lost.key) < Arrived(operations, maxBytes, stays.key)
  {
    PutsExactly(entries, gone, entry, after);
    var i :| 0 <= i < |entries| && entries[i] == lost;
    var j :| gone <= j < |entries| && entries[j] == stays;
  }

  /** What a list holds once its first entries are gone and one more is put. */
  lemma {:induction false} PutsExactly(entries: seq<Entry>, gone: nat, entry: Entry, after: seq<Entry>)
    requires DistinctKeys(entries) && gone <= |entries| && after == Put(entries[gone..], entry)
    ensures entry in after
    ensures forall other :: other in after && other.key == entry.key ==> other == entry
    ensures forall at :: 0 <= at < |entries| && entries[at].key != entry.key ==> (entries[at] in after <==> gone <= at)
    ensures forall other :: other in after && other.key != entry.key ==>
      exists at :: gone <= at < |entries| && entries[at] == other
  {
    var left := entries[gone..];
    var at := IndexOf(left, entry.key);
    assert forall i :: 0 <= i < |left| ==> left[i] == entries[gone + i];
    assert after[if at < |left| then at else |left|] == entry;
    forall i | 0 <= i < |left| && left[i].key != entry.key
      ensures left[i] in after
    {
      assert after[i] == left[i];
    }
    forall i | gone <= i < |entries| && entries[i].key != entry.key
      ensures entries[i] in after
    {
      assert left[i - gone] == entries[i];
    }
  }

  // ---------------------------------------------------------------- sessions apart

  /** Neither session, with the slash behind it, is the beginning of the other. */
  ghost predicate Apart(sessionId: string, other: string) {
    !(sessionId + "/" <= other + "/") && !(other + "/" <= sessionId + "/")
  }

  /** Forgetting a session takes nothing of another, whatever the cache holds. */
  ghost predicate Spares(sessionId: string, other: string) {
    forall state: State, id: string, part: Part ::
      Entry(KeyOf(other, id), part) in state.entries ==>
        Entry(KeyOf(other, id), part) in Forgotten(state, sessionId).entries
  }

  lemma {:induction false} PrefixesMeet(prefix: string, other: string) returns (rest: string)
    ensures prefix <= other || other <= prefix ==> prefix <= other + rest
    ensures forall any :: prefix <= other + any ==> prefix <= other || other <= prefix
  {
    rest := "";
    if other <= prefix {
      rest := prefix[|other|..];
      assert other + rest == prefix;
    } else {
      assert other + rest == other;
    }
    forall any | prefix <= other + any
      ensures prefix <= other || other <= prefix
    {
      assert other == (other + any)[..|other|];
    }
  }

  /** Forgetting a session spares another, and their keys never meet, exactly when they are apart. */
  lemma {:induction false} SessionsStayApartExactly(sessionId: string, other: string)
    ensures Spares(sessionId, other) <==> Apart(sessionId, other)
    ensures (forall id :: !BelongsTo(KeyOf(other, id), sessionId)) <==> Apart(sessionId, other)
    ensures (forall id, otherId :: KeyOf(sessionId, id) != KeyOf(other, otherId)) <==> Apart(sessionId, other)
  {
    var prefix, mine := other + "/", sessionId + "/";
    var rest := PrefixesMeet(mine, prefix);
    assert KeyOf(other, rest) == prefix + rest;
    if Apart(sessionId, other) {
      forall id
        ensures !BelongsTo(KeyOf(other, id), sessionId)
      {
        assert KeyOf(other, id) == prefix + id;
      }
      forall id, otherId
        ensures KeyOf(sessionId, id) != KeyOf(other, otherId)
      {
        assert KeyOf(sessionId, id) == mine + id && !BelongsTo(KeyOf(other, otherId), sessionId);
      }
      ApartIsSpared(sessionId, other);
    } else {
      assert BelongsTo(KeyOf(other, rest), sessionId);
      MeetingIsForgotten(sessionId, other, rest);
      assert KeyOf(sessionId, KeyOf(other, rest)[|mine|..]) == KeyOf(other, rest);
    }
  }

  lemma {:induction false} ApartIsSpared(sessionId: string, other: string)
    requires forall id :: !BelongsTo(KeyOf(other, id), sessionId)
    ensures Spares(sessionId, other)
  {
    forall state: State, id: string, part: Part | Entry(KeyOf(other, id), part) in state.entries
      ensures Entry(KeyOf(other, id), part) in Forgotten(state, sessionId).entries
    {
      ForgettingIsExact(state, sessionId, Entry(KeyOf(other, id), part));
    }
  }

  lemma {:induction false} MeetingIsForgotten(sessionId: string, other: string, id: string)
    requires BelongsTo(KeyOf(other, id), sessionId)
    ensures !Spares(sessionId, other)
  {
    var entry := Entry(KeyOf(other, id), Part(1, ""));
    var state := State([entry], 1);
    ForgettingIsExact(state, sessionId, entry);
    assert entry in state.entries;
  }

  /** So where session names hold no slash, different sessions are apart. */
  lemma {:induction false} SlashFreeSessionsStayApart(sessionId: string, other: string)
    requires '/' !in sessionId && '/' !in other
    ensures Apart(sessionId, other) <==> sessionId != other
    ensures Spares(sessionId, other) <==> sessionId != other
    ensures forall otherId :: BelongsTo(KeyOf(other, otherId), sessionId) <==> sessionId == other
    ensures forall id, otherId :: KeyOf(sessionId, id) == KeyOf(other, otherId) ==> sessionId == other && id == otherId
  {
    SlashEndsTheName(sessionId, other);
    SlashEndsTheName(other, sessionId);
    SessionsStayApartExactly(sessionId, other);
    forall id, otherId | KeyOf(sessionId, id) == KeyOf(other, otherId)
      ensures sessionId == other && id == otherId
    {
      assert KeyOf(sessionId, id)[|sessionId| + 1..] == id && KeyOf(other, otherId)[|other| + 1..] == otherId;
    }
  }

  lemma {:induction false} SlashEndsTheName(sessionId: string, other: string)
    requires '/' !in other
    ensures sessionId + "/" <= other + "/" <==> sessionId == other
  {
    if sessionId + "/" <= other + "/" {
      assert (other + "/")[|sessionId|] == (sessionId + "/")[|sessionId|] == '/';
      assert |sessionId| == |other|;
      assert sessionId == (sessionId + "/")[..|sessionId|] == (other + "/")[..|other|] == other;
    }
  }

  /** Otherwise they do not: forgetting a session forgets every session nested under its name. */
  lemma {:induction false} NestedSessionsAreForgottenToo(sessionId: string, tail: string, id: string)
    ensures BelongsTo(KeyOf(sessionId + "/" + tail, id), sessionId)
    ensures KeyOf(sessionId + "/" + tail, id) == KeyOf(sessionId, tail + "/" + id)
    ensures !Spares(sessionId, sessionId + "/" + tail)
  {
    MeetingIsForgotten(sessionId, sessionId + "/" + tail, id);
    assert KeyOf(sessionId + "/" + tail, id) == sessionId + "/" + (tail + "/" + id);
  }

  // ---------------------------------------------------------------- the cache itself

  class AttachmentCache {
    const maxBytes: nat
    var parts: seq<Entry>
    var bytes: int

    function Current(): State
      reads this
    {
      State(parts, bytes)
    }

    constructor (maxBytes: nat)
      ensures Current() == EMPTY && this.maxBytes == maxBytes
    {
      this.maxBytes := maxBytes;
      parts, bytes := [], 0;
    }

    method Find(sessionId: string, id: string) returns (part: Option<Part>)
      ensures match part
        case None => forall entry :: entry in parts ==> entry.key != KeyOf(sessionId, id)
        case Some(found) => Entry(KeyOf(sessionId, id), found) in parts
    {
      var at := IndexOf(parts, KeyOf(sessionId, id));
      part := if at < |parts| then Some(parts[at].part) else None;
    }

    method Remember(sessionId: string, id: string, part: Part)
      modifies this
      ensures Current() == Applied(old(Current()), Operation.Remember(sessionId, id, part), maxBytes)
    {
      if part.bytes > maxBytes {
        return;
      }
      while bytes + part.bytes > maxBytes
        invariant Evicted(Current(), part.bytes, maxBytes) == Evicted(old(Current()), part.bytes, maxBytes)
        decreases |parts|
      {
        if parts == [] {
          break;
        }
        ghost var left := parts[1..];
        ForgetAt(0);
        assert parts == left;
      }
      parts := Put(parts, Entry(KeyOf(sessionId, id), part));
      bytes := bytes + part.bytes;
    }

    method ForgetAt(at: nat)
      requires at < |parts|
      modifies this
      ensures parts == old(parts)[..at] + old(parts)[at + 1..] && bytes == old(bytes) - old(parts)[at].part.bytes
    {
      var part := parts[at].part;
      parts := parts[..at] + parts[at + 1..];
      bytes := bytes - part.bytes;
    }

    method Forget(sessionId: string)
      modifies this
      ensures Current() == Forgotten(old(Current()), sessionId)
    {
      ghost var entries, counted := parts, bytes;
      ghost var done := Forgotten(State([], counted), sessionId);
      var kept := 0;
      for seen := 0 to |parts|
        invariant seen <= |entries| && done == Forgotten(State(entries[..seen], counted), sessionId)
        invariant parts == done.entries + entries[seen..] && kept == |done.entries| && bytes == done.bytes
      {
        ForgottenGoesOn(entries, counted, seen, sessionId, parts);
        done := Forgotten(State(entries[..seen + 1], counted), sessionId);
        if BelongsTo(parts[kept].key, sessionId) {
          ForgetAt(kept);
        } else {
          kept := kept + 1;
        }
      }
      assert entries[..|entries|] == entries;
    }
  }

  lemma {:induction false} ForgottenGoesOn(entries: seq<Entry>, bytes: int, seen: nat, sessionId: string, parts: seq<Entry>)
    requires seen < |entries|
    requires parts == Forgotten(State(entries[..seen], bytes), sessionId).entries + entries[seen..]
    ensures var before := Forgotten(State(entries[..seen], bytes), sessionId);
      var after := Forgotten(State(entries[..seen + 1], bytes), sessionId);
      var kept := |before.entries|;
      && parts[kept] == entries[seen]
      && if BelongsTo(entries[seen].key, sessionId)
         then |after.entries| == kept && after.bytes == before.bytes - entries[seen].part.bytes
              && parts[..kept] + parts[kept + 1..] == after.entries + entries[seen + 1..]
         else |after.entries| == kept + 1 && after.bytes == before.bytes && parts == after.entries + entries[seen + 1..]
  {
    assert entries[..seen + 1][..seen] == entries[..seen];
    var before := Forgotten(State(entries[..seen], bytes), sessionId);
    assert entries[seen..] == [entries[seen]] + entries[seen + 1..];
    assert parts == before.entries + [entries[seen]] + entries[seen + 1..];
  }
}
