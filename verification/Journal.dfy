/** Values that may be absent. */
module Options {
  datatype Option<+T> = None | Some(value: T)
}

/**
 * The events of a session as its journal holds them. A `Fact` is what an event's codec writes as
 * its payload; the header (identifier and run) stays outside of it, which is why two events with
 * the same fact have the same fingerprint.
 */
module Journal {
  import opened Options

  type EventId = string
  type RunId = string
  type CallId = string
  type AgentName = string

  datatype Attachment = Attachment(reference: string, mediaType: string)

  datatype SkillScope = RunScope | SessionScope

  datatype ApprovalDecision = Granted | Denied

  /** One call of a suspended turn; `effect` is present when a policy held the call. */
  datatype HeldCall = HeldCall(
    callId: CallId,
    toolName: string,
    effect: Option<string>,
    decision: Option<ApprovalDecision>,
    reason: Option<string>)

  /** The tokens a provider counted for a prompt, and the characters they were counted over. */
  datatype Measurement = Measurement(inputTokens: nat, characters: nat)

  datatype Fact =
    | SessionCreated(rootAgent: AgentName)
    | AgentTransferred(to: AgentName)
    | MetadataSet(key: string, entry: string)
    | MetadataDeleted(key: string)
    | UserMessageReceived(text: string, attachments: seq<Attachment>)
    | AssistantMessageProduced(text: string, measurement: Option<Measurement>)
    | AgentRunSuspended(calls: seq<HeldCall>)
    | ToolApprovalGranted(callId: CallId)
    | ToolApprovalDenied(callId: CallId, refusal: Option<string>)
    | AgentRunCompleted
    | AgentRunFailed
    | AgentRunCancelled
    | DelegationStarted(childRunId: RunId)
    | SkillActivated(scope: SkillScope, callId: CallId)
    | ToolCallRequested(callId: CallId, toolName: string, args: string, signature: Option<string>)
    | ToolResultProduced(callId: CallId, toolName: string, output: string, failed: bool, attachments: seq<Attachment>)
    | Recorded(name: string)  // every other entry of the catalog: history nobody projects

  datatype Event = Event(id: EventId, runId: RunId, fact: Fact)

  datatype Stored = Stored(revision: nat, event: Event)

  /** Revisions grow strictly along the journal. */
  ghost predicate Ordered(journal: seq<Stored>) {
    forall i, j :: 0 <= i < j < |journal| ==> journal[i].revision < journal[j].revision
  }

  /** The events a reader who already knows everything up to `revision` still has to see. */
  function After(journal: seq<Stored>, revision: nat): seq<Stored> {
    if journal == [] then []
    else if journal[0].revision > revision then [journal[0]] + After(journal[1..], revision)
    else After(journal[1..], revision)
  }

  /** The events a reader standing at `revision` has already seen. */
  ghost function UpTo(journal: seq<Stored>, revision: nat): seq<Stored> {
    if journal == [] then []
    else if journal[0].revision <= revision then [journal[0]] + UpTo(journal[1..], revision)
    else UpTo(journal[1..], revision)
  }

  /** Reading after a revision cuts an ordered journal in two. */
  lemma {:induction false} CutAt(journal: seq<Stored>, revision: nat)
    requires Ordered(journal)
    ensures UpTo(journal, revision) + After(journal, revision) == journal
    decreases |journal|
  {
    if journal != [] {
      var first, rest := journal[0], journal[1..];
      assert journal == [first] + rest;
      if first.revision > revision {
        NothingUpTo(journal, revision);
        AfterAll(journal, revision);
      } else {
        CutAt(rest, revision);
        assert UpTo(journal, revision) == [first] + UpTo(rest, revision);
      }
    }
  }

  lemma {:induction false} NothingUpTo(journal: seq<Stored>, revision: nat)
    requires forall i :: 0 <= i < |journal| ==> journal[i].revision > revision
    ensures UpTo(journal, revision) == []
  {
    if journal != [] {
      NothingUpTo(journal[1..], revision);
    }
  }

  lemma {:induction false} AfterAll(journal: seq<Stored>, revision: nat)
    requires forall i :: 0 <= i < |journal| ==> journal[i].revision > revision
    ensures After(journal, revision) == journal
    decreases |journal|
  {
    if journal != [] {
      AfterAll(journal[1..], revision);
    }
  }
}
