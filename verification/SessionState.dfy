/**
 * The state a journal folds into
 * (packages/core/src/runtime/session/state-projector.service.ts and
 * packages/core/src/domain/session/state/session-state.value-object.ts).
 */
module SessionStates {
  import opened Options
  import opened Journal

  const PROJECTOR_VERSION := 5

  datatype PendingTurn = PendingTurn(runId: RunId, calls: seq<HeldCall>)
  {
    predicate IsDecided() {
      forall i :: 0 <= i < |calls| ==> calls[i].effect.None? || calls[i].decision.Some?
    }

    function Decided(callId: CallId, decision: ApprovalDecision, reason: Option<string>): PendingTurn {
      this.(calls := DecideAll(calls, callId, decision, reason))
    }
  }

  function DecideAll(calls: seq<HeldCall>, callId: CallId, decision: ApprovalDecision, reason: Option<string>): seq<HeldCall> {
    if calls == [] then []
    else
      var call := calls[0];
      [if call.callId == callId then call.(decision := Some(decision), reason := reason) else call]
      + DecideAll(calls[1..], callId, decision, reason)
  }

  datatype SessionState = SessionState(
    revision: nat,
    values: map<string, string>,
    activeAgent: Option<AgentName>,
    lastPrompt: Option<Measurement>,
    pendingTurn: Option<PendingTurn>,
    metadata: map<string, string>)
  {
    function At(at: nat): SessionState {
      this.(revision := at)
    }

    function Decide(callId: CallId, decision: ApprovalDecision, reason: Option<string>): SessionState {
      if pendingTurn.None? then this
      else this.(pendingTurn := Some(pendingTurn.value.Decided(callId, decision, reason)))
    }

    predicate IsAwaitingApproval() {
      pendingTurn.Some? && !pendingTurn.value.IsDecided()
    }
  }

  const INITIAL := SessionState(0, map[], None, None, None, map[])

  function Project(state: SessionState, event: Event): SessionState {
    match event.fact
    case SessionCreated(rootAgent) => state.(activeAgent := Some(rootAgent))
    case AgentTransferred(to) => state.(activeAgent := Some(to))
    case MetadataSet(key, entry) => state.(metadata := state.metadata[key := entry])
    case MetadataDeleted(key) => state.(metadata := state.metadata - {key})
    case AssistantMessageProduced(_, Some(measured)) => state.(lastPrompt := Some(measured))
    case AgentRunSuspended(calls) => state.(pendingTurn := Some(PendingTurn(event.runId, calls)))
    case ToolApprovalGranted(callId) => state.Decide(callId, Granted, None)
    case ToolApprovalDenied(callId, refusal) => state.Decide(callId, Denied, refusal)
    case AgentRunCompleted => state.(pendingTurn := None)
    case AgentRunFailed => state.(pendingTurn := None)
    case AgentRunCancelled => state.(pendingTurn := None)
    case _ => state
  }

  function Apply(state: SessionState, stored: Stored): SessionState {
    Project(state, stored.event).At(stored.revision)
  }

  function ApplyAll(state: SessionState, events: seq<Stored>): SessionState
    decreases |events|
  {
    if events == [] then state else ApplyAll(Apply(state, events[0]), events[1..])
  }

  /** What a journal means: its fold from the beginning. */
  function Fold(journal: seq<Stored>): SessionState {
    ApplyAll(INITIAL, journal)
  }

  lemma {:induction false} ApplyAllAppend(state: SessionState, first: seq<Stored>, second: seq<Stored>)
    ensures ApplyAll(state, first + second) == ApplyAll(ApplyAll(state, first), second)
    decreases |first|
  {
    if first == [] {
      assert first + second == second;
    } else {
      assert (first + second)[1..] == first[1..] + second;
      ApplyAllAppend(Apply(state, first[0]), first[1..], second);
    }
  }

  /** A fold goes on from any prefix. */
  lemma {:induction false} FoldGoesOn(journal: seq<Stored>, at: nat)
    requires at <= |journal|
    ensures Fold(journal) == ApplyAll(Fold(journal[..at]), journal[at..])
  {
    assert journal[..at] + journal[at..] == journal;
    ApplyAllAppend(INITIAL, journal[..at], journal[at..]);
  }

  /** A state remembers the revision of the last event folded into it. */
  lemma {:induction false} ReachesLast(state: SessionState, events: seq<Stored>)
    requires events != []
    ensures ApplyAll(state, events).revision == events[|events| - 1].revision
    decreases |events|
  {
    if |events| > 1 {
      ReachesLast(Apply(state, events[0]), events[1..]);
    }
  }
}

/**
 * Shortcuts to a state the journal can always rebuild
 * (packages/core/src/domain/session/state/session-snapshot.value-object.ts).
 */
module Snapshots {
  import opened Options
  import opened Journal
  import opened SessionStates

  /** A digest of what the canonical form of a state writes down: not its metadata, prompt or pending turn. */
  datatype Checksum = Checksum(
    sessionId: string,
    projectorVersion: nat,
    revision: nat,
    values: map<string, string>,
    activeAgent: Option<AgentName>)

  function ChecksumOf(sessionId: string, projectorVersion: nat, state: SessionState): Checksum {
    Checksum(sessionId, projectorVersion, state.revision, state.values, state.activeAgent)
  }

  datatype Snapshot = Snapshot(
    sessionId: string,
    revision: nat,
    projectorVersion: nat,
    state: SessionState,
    checksum: Checksum)
  {
    predicate IsUsableAt(version: nat, head: nat, expected: Checksum) {
      projectorVersion == version && checksum == expected && revision <= head
    }
  }

  /** Writes a snapshot when the journal crosses a bucket of events, and whenever a turn waits for approval. */
  predicate ShouldSnapshot(everyEvents: nat, before: nat, after: nat, state: SessionState)
    requires everyEvents > 0
  {
    state.IsAwaitingApproval() || after / everyEvents > before / everyEvents
  }
}
