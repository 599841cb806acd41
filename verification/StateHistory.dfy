/**
 * What the state of a session says, told by the facts of its journal alone
 * (packages/core/src/runtime/session/state-projector.service.ts).
 */
module StateHistories {
  import opened Options
  import opened Journal
  import opened SessionStates
  import opened Snapshots

  /** The last event of a kind. */
  ghost function Latest(journal: seq<Stored>, kind: Fact -> bool): (at: Option<nat>)
    ensures at.Some? ==> at.value < |journal| && kind(journal[at.value].event.fact)
    ensures forall i :: (if at.Some? then at.value + 1 else 0) <= i < |journal| ==> !kind(journal[i].event.fact)
  {
    if journal == [] then None
    else
      var last := |journal| - 1;
      if kind(journal[last].event.fact) then Some(last) else Latest(journal[..last], kind)
  }

  lemma {:induction false} LatestOneMore(front: seq<Stored>, last: Stored, kind: Fact -> bool)
    ensures Latest(front + [last], kind) == if kind(last.event.fact) then Some(|front|) else Latest(front, kind)
  {
    assert (front + [last])[..|front|] == front;
  }

  predicate NamesAgent(fact: Fact) {
    fact.SessionCreated? || fact.AgentTransferred?
  }

  function Touches(key: string): Fact -> bool {
    (fact: Fact) => (fact.MetadataSet? && fact.key == key) || (fact.MetadataDeleted? && fact.key == key)
  }

  predicate Measures(fact: Fact) {
    fact.AssistantMessageProduced? && fact.measurement.Some?
  }

  /** A run is suspended, or ends. */
  predicate Halts(fact: Fact) {
    fact.AgentRunSuspended? || fact.AgentRunCompleted? || fact.AgentRunFailed? || fact.AgentRunCancelled?
  }

  function Rules(callId: CallId): Fact -> bool {
    (fact: Fact) => (fact.ToolApprovalGranted? && fact.callId == callId) || (fact.ToolApprovalDenied? && fact.callId == callId)
  }

  // ---------------------------------------------------------------- what each part of a state says

  ghost predicate AgentTold(journal: seq<Stored>, agent: Option<AgentName>) {
    match Latest(journal, NamesAgent)
    case None => agent == None
    case Some(at) =>
      var fact := journal[at].event.fact;
      agent == Some(if fact.SessionCreated? then fact.rootAgent else fact.to)
  }

  ghost predicate KeyTold(journal: seq<Stored>, metadata: map<string, string>, key: string) {
    match Latest(journal, Touches(key))
    case None => key !in metadata
    case Some(at) =>
      var fact := journal[at].event.fact;
      if fact.MetadataSet? then key in metadata && metadata[key] == fact.entry else key !in metadata
  }

  ghost predicate KeysTold(journal: seq<Stored>, metadata: map<string, string>) {
    forall key :: KeyTold(journal, metadata, key)
  }

  ghost predicate PromptTold(journal: seq<Stored>, prompt: Option<Measurement>) {
    match Latest(journal, Measures)
    case None => prompt == None
    case Some(at) => prompt == journal[at].event.fact.measurement
  }

  /** A call held since `at` carries the last ruling on it since then, or else what it was suspended with. */
  ghost predicate CallTold(journal: seq<Stored>, at: nat, suspended: HeldCall, call: HeldCall) {
    && call.callId == suspended.callId && call.toolName == suspended.toolName && call.effect == suspended.effect
    && var ruling := Latest(journal, Rules(suspended.callId));
    if ruling.None? || ruling.value < at then call.decision == suspended.decision && call.reason == suspended.reason
    else
      var fact := journal[ruling.value].event.fact;
      if fact.ToolApprovalGranted? then call.decision == Some(Granted) && call.reason == None
      else call.decision == Some(Denied) && call.reason == fact.refusal
  }

  ghost predicate TurnTold(journal: seq<Stored>, turn: Option<PendingTurn>) {
    match Latest(journal, Halts)
    case None => turn == None
    case Some(at) =>
      var fact := journal[at].event.fact;
      if !fact.AgentRunSuspended? then turn == None
      else
        && turn.Some? && turn.value.runId == journal[at].event.runId
        && |turn.value.calls| == |fact.calls|
        && forall i :: 0 <= i < |fact.calls| ==> CallTold(journal, at, fact.calls[i], turn.value.calls[i])
  }

  /** The whole state, by the facts of the journal. */
  ghost predicate Told(journal: seq<Stored>, state: SessionState) {
    && state.revision == (if journal == [] then 0 else journal[|journal| - 1].revision)
    && state.values == map[]
    && AgentTold(journal, state.activeAgent)
    && KeysTold(journal, state.metadata)
    && PromptTold(journal, state.lastPrompt)
    && TurnTold(journal, state.pendingTurn)
  }

  // ---------------------------------------------------------------- event by event

  lemma {:induction false} DecidesAll(calls: seq<HeldCall>, callId: CallId, decision: ApprovalDecision, reason: Option<string>)
    ensures var decided := DecideAll(calls, callId, decision, reason);
      && |decided| == |calls|
      && forall i :: 0 <= i < |calls| ==>
        decided[i] == if calls[i].callId == callId then calls[i].(decision := Some(decision), reason := reason) else calls[i]
  {
    if calls != [] {
      DecidesAll(calls[1..], callId, decision, reason);
    }
  }

  lemma {:induction false} AgentGoesOn(front: seq<Stored>, state: SessionState, last: Stored, journal: seq<Stored>)
    requires AgentTold(front, state.activeAgent) && journal == front + [last]
    ensures AgentTold(journal, Apply(state, last).activeAgent)
  {
    LatestOneMore(front, last, NamesAgent);
  }

  lemma {:induction false} KeyGoesOn(front: seq<Stored>, state: SessionState, last: Stored, journal: seq<Stored>, key: string)
    requires KeyTold(front, state.metadata, key) && journal == front + [last]
    ensures KeyTold(journal, Apply(state, last).metadata, key)
  {
    LatestOneMore(front, last, Touches(key));
  }

  lemma {:induction false} PromptGoesOn(front: seq<Stored>, state: SessionState, last: Stored, journal: seq<Stored>)
    requires PromptTold(front, state.lastPrompt) && journal == front + [last]
    ensures PromptTold(journal, Apply(state, last).lastPrompt)
  {
    LatestOneMore(front, last, Measures);
  }

  /** A call of a turn that goes on. */
  lemma {:induction false} CallGoesOn(
    front: seq<Stored>, last: Stored, journal: seq<Stored>, at: nat, suspended: HeldCall, before: HeldCall, after: HeldCall)
    requires at < |front| && CallTold(front, at, suspended, before) && journal == front + [last]
    requires after == Ruled(last.event.fact, before)
    ensures CallTold(journal, at, suspended, after)
  {
    LatestOneMore(front, last, Rules(suspended.callId));
  }

  /** What a ruling makes of a held call. */
  ghost function Ruled(fact: Fact, call: HeldCall): HeldCall {
    if fact.ToolApprovalGranted? && fact.callId == call.callId then call.(decision := Some(Granted), reason := None)
    else if fact.ToolApprovalDenied? && fact.callId == call.callId then call.(decision := Some(Denied), reason := fact.refusal)
    else call
  }

  lemma {:induction false} TurnRules(state: SessionState, last: Stored)
    requires !Halts(last.event.fact)
    ensures match state.pendingTurn
      case None => Apply(state, last).pendingTurn == None
      case Some(turn) =>
        var after := Apply(state, last).pendingTurn;
        && after.Some? && after.value.runId == turn.runId && |after.value.calls| == |turn.calls|
        && forall i :: 0 <= i < |turn.calls| ==> after.value.calls[i] == Ruled(last.event.fact, turn.calls[i])
  {
    var fact := last.event.fact;
    if state.pendingTurn.Some? {
      if fact.ToolApprovalGranted? {
        DecidesAll(state.pendingTurn.value.calls, fact.callId, Granted, None);
      } else if fact.ToolApprovalDenied? {
        DecidesAll(state.pendingTurn.value.calls, fact.callId, Denied, fact.refusal);
      }
    }
  }

  lemma {:induction false} TurnGoesOn(front: seq<Stored>, state: SessionState, last: Stored, journal: seq<Stored>)
    requires TurnTold(front, state.pendingTurn) && journal == front + [last] && !Halts(last.event.fact)
    ensures TurnTold(journal, Apply(state, last).pendingTurn)
  {
    LatestOneMore(front, last, Halts);
    TurnRules(state, last);
    var halted := Latest(front, Halts);
    if halted.Some? && front[halted.value].event.fact.AgentRunSuspended? {
      var calls, before := front[halted.value].event.fact.calls, state.pendingTurn.value.calls;
      var after := Apply(state, last).pendingTurn.value.calls;
      forall i | 0 <= i < |calls|
        ensures CallTold(journal, halted.value, calls[i], after[i])
      {
        CallGoesOn(front, last, journal, halted.value, calls[i], before[i], after[i]);
      }
    }
  }

  /** A turn begins with every call as it was suspended. */
  lemma {:induction false} TurnBegins(front: seq<Stored>, state: SessionState, last: Stored, journal: seq<Stored>)
    requires journal == front + [last] && Halts(last.event.fact)
    ensures TurnTold(journal, Apply(state, last).pendingTurn)
  {
    LatestOneMore(front, last, Halts);
    if last.event.fact.AgentRunSuspended? {
      var calls := last.event.fact.calls;
      forall i | 0 <= i < |calls|
        ensures CallTold(journal, |front|, calls[i], calls[i])
      {
        LatestOneMore(front, last, Rules(calls[i].callId));
      }
    }
  }

  lemma {:induction false} KeysGoOn(front: seq<Stored>, state: SessionState, last: Stored, journal: seq<Stored>)
    requires KeysTold(front, state.metadata) && journal == front + [last]
    ensures KeysTold(journal, Apply(state, last).metadata)
  {
    forall key
      ensures KeyTold(journal, Apply(state, last).metadata, key)
    {
      KeyGoesOn(front, state, last, journal, key);
    }
  }

  lemma {:induction false} HaltGoesOn(front: seq<Stored>, state: SessionState, last: Stored, journal: seq<Stored>)
    requires TurnTold(front, state.pendingTurn) && journal == front + [last]
    ensures TurnTold(journal, Apply(state, last).pendingTurn)
  {
    if Halts(last.event.fact) {
      TurnBegins(front, state, last, journal);
    } else {
      TurnGoesOn(front, state, last, journal);
    }
  }

  lemma {:induction false} RevisionGoesOn(state: SessionState, last: Stored)
    ensures Apply(state, last).revision == last.revision && Apply(state, last).values == state.values
  {
  }

  lemma {:induction false} StateGoesOn(front: seq<Stored>, state: SessionState, last: Stored, journal: seq<Stored>)
    requires Told(front, state) && journal == front + [last]
    ensures Told(journal, Apply(state, last))
  {
    RevisionGoesOn(state, last);
    AgentGoesOn(front, state, last, journal);
    KeysGoOn(front, state, last, journal);
    PromptGoesOn(front, state, last, journal);
    HaltGoesOn(front, state, last, journal);
  }

  lemma {:induction false} FoldOneMore(front: seq<Stored>, last: Stored)
    ensures Fold(front + [last]) == Apply(Fold(front), last)
  {
    ApplyAllAppend(INITIAL, front, [last]);
    assert [last][1..] == [];
    assert ApplyAll(Fold(front), [last]) == ApplyAll(Apply(Fold(front), last), []);
  }

  /** The state of every journal is what its facts tell, part by part. */
  lemma {:induction false} FoldIsTold(journal: seq<Stored>)
    ensures Told(journal, Fold(journal))
    decreases |journal|
  {
    if journal == [] {
      assert Fold(journal) == INITIAL;
    } else {
      var front, last := journal[..|journal| - 1], journal[|journal| - 1];
      assert journal == front + [last];
      FoldIsTold(front);
      FoldOneMore(front, last);
      StateGoesOn(front, Fold(front), last, journal);
    }
  }

  /** Only one state is told by a journal. */
  lemma {:induction false} OnlyOneIsTold(journal: seq<Stored>, state: SessionState)
    ensures Told(journal, state) <==> state == Fold(journal)
  {
    FoldIsTold(journal);
    if Told(journal, state) {
      var folded := Fold(journal);
      forall key
        ensures key in state.metadata <==> key in folded.metadata
        ensures key in state.metadata && key in folded.metadata ==> state.metadata[key] == folded.metadata[key]
      {
        assert KeyTold(journal, state.metadata, key) && KeyTold(journal, folded.metadata, key);
      }
      assert state.metadata == folded.metadata;
      SameTurn(journal, state.pendingTurn, folded.pendingTurn);
    }
  }

  lemma {:induction false} SameTurn(journal: seq<Stored>, one: Option<PendingTurn>, other: Option<PendingTurn>)
    requires TurnTold(journal, one) && TurnTold(journal, other)
    ensures one == other
  {
    var halted := Latest(journal, Halts);
    if halted.Some? && journal[halted.value].event.fact.AgentRunSuspended? {
      var calls := journal[halted.value].event.fact.calls;
      forall i | 0 <= i < |calls|
        ensures one.value.calls[i] == other.value.calls[i]
      {
        assert CallTold(journal, halted.value, calls[i], one.value.calls[i]);
        assert CallTold(journal, halted.value, calls[i], other.value.calls[i]);
      }
      assert one.value.calls == other.value.calls;
    }
  }

  // ---------------------------------------------------------------- when a snapshot is due

  /** A snapshot is due when a held call waits for a ruling, or a multiple of the bucket was reached. */
  lemma {:induction false} SnapshotsExactly(everyEvents: nat, before: nat, after: nat, state: SessionState)
    requires everyEvents > 0
    ensures ShouldSnapshot(everyEvents, before, after, state)
      <==> || (state.pendingTurn.Some?
               && exists call :: call in state.pendingTurn.value.calls && call.effect.Some? && call.decision.None?)
           || (exists bucket: nat :: before < Reached(everyEvents, bucket) <= after)
  {
    var bucket := after / everyEvents;
    assert Reached(everyEvents, bucket) <= after;
    BucketOf(everyEvents, before);
    if bucket > before / everyEvents {
      Monotone(everyEvents, before / everyEvents + 1, bucket);
      assert before < Reached(everyEvents, bucket) <= after;
    } else {
      BucketOf(everyEvents, after);
      forall other: nat
        ensures !(before < Reached(everyEvents, other) <= after)
      {
        if other <= before / everyEvents {
          Monotone(everyEvents, other, before / everyEvents);
        } else {
          Monotone(everyEvents, bucket + 1, other);
        }
      }
    }
  }

  function Reached(everyEvents: nat, bucket: nat): nat {
    everyEvents * bucket
  }

  lemma {:induction false} BucketOf(everyEvents: nat, revision: nat)
    requires everyEvents > 0
    ensures Reached(everyEvents, revision / everyEvents) <= revision < Reached(everyEvents, revision / everyEvents + 1)
  {
    assert Reached(everyEvents, revision / everyEvents + 1) == Reached(everyEvents, revision / everyEvents) + everyEvents;
  }

  lemma {:induction false} Monotone(everyEvents: nat, fewer: nat, more: nat)
    requires fewer <= more
    ensures Reached(everyEvents, fewer) <= Reached(everyEvents, more)
  {
    assert everyEvents * more == everyEvents * fewer + everyEvents * (more - fewer);
  }
}
