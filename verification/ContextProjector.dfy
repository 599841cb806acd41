/**
 * Folding the journal into blocks
 * (packages/core/src/runtime/context/context-projector.service.ts).
 */
module ContextProjector {
  import opened Options
  import opened Journal
  import opened ContextBlocks

  /** What reading some attachments answers: parts the model sees, notes for those it does not. */
  datatype Resolved = Resolved(media: seq<MediaPart>, notes: seq<string>)

  /** Reads attachments at a revision, for the current run or not, with or without remote addresses. */
  type Reader = (seq<Attachment>, nat, bool, bool) -> Resolved

  datatype Request = Request(currentRun: Option<RunId>, acceptsRemoteUrl: bool, read: Reader)

  /** The local variables of one projection. */
  datatype Projecting = Projecting(
    blocks: seq<Block>,
    pending: map<CallId, nat>,
    positions: map<CallId, nat>,
    delegated: set<RunId>,
    breath: Option<nat>)

  /** How far a projection got, or the result nobody asked for that stopped it. */
  datatype Outcome = Going(state: Projecting) | Orphan(callId: CallId, toolName: string)

  /** What `project` answers its caller. */
  datatype Projection = Blocks(blocks: seq<Block>) | OrphanToolResult(callId: CallId, toolName: string)

  const START := Projecting([], map[], map[], {}, None)

  function Join(notes: seq<string>): string {
    if notes == [] then ""
    else if |notes| == 1 then notes[0]
    else notes[0] + "\n" + Join(notes[1..])
  }

  /** Notes stand in their order, a line break between any two. */
  lemma {:induction false} JoinOfBoth(some: seq<string>, more: seq<string>)
    requires some != [] && more != []
    ensures Join(some + more) == Join(some) + "\n" + Join(more)
    ensures forall note :: Join([note]) == note
  {
    if |some| > 1 {
      assert (some + more)[1..] == some[1..] + more;
      JoinOfBoth(some[1..], more);
    } else {
      assert (some + more)[1..] == more;
    }
  }

  function AppendTo(resolved: Resolved, text: string): string {
    if resolved.notes == [] then text else text + "\n\n" + Join(resolved.notes)
  }

  function Annotate(resolved: Resolved, output: string): string {
    if resolved.notes == [] then output else output + "[attachments]" + Join(resolved.notes)
  }

  predicate IsCurrent(request: Request, stored: Stored) {
    request.currentRun == Some(stored.event.runId)
  }

  predicate BelongsToAnother(request: Request, delegated: set<RunId>, stored: Stored) {
    stored.event.runId in delegated && !IsCurrent(request, stored)
  }

  predicate IsConversational(fact: Fact) {
    fact.UserMessageReceived? || fact.AssistantMessageProduced? || fact.ToolResultProduced?
    || fact.SkillActivated? || fact.DelegationStarted?
  }

  predicate IsActive(request: Request, stored: Stored)
    requires stored.event.fact.SkillActivated?
  {
    request.currentRun.None? || stored.event.fact.scope.SessionScope? || IsCurrent(request, stored)
  }

  function Said(request: Request, stored: Stored): Message
    requires stored.event.fact.UserMessageReceived?
  {
    var fact := stored.event.fact;
    if fact.attachments == [] then UserMessage(fact.text, [])
    else
      var resolved := request.read(fact.attachments, stored.revision, IsCurrent(request, stored), request.acceptsRemoteUrl);
      UserMessage(AppendTo(resolved, fact.text), resolved.media)
  }

  function Answered(request: Request, stored: Stored): Message
    requires stored.event.fact.ToolResultProduced?
  {
    var fact := stored.event.fact;
    var resolved :=
      if fact.attachments == [] then Resolved([], [])
      else request.read(fact.attachments, stored.revision, IsCurrent(request, stored), request.acceptsRemoteUrl);
    ToolResultMessage(fact.callId, fact.toolName, Annotate(resolved, fact.output), fact.failed, resolved.media)
  }

  function Call(fact: Fact): Message
    requires fact.ToolCallRequested?
  {
    ToolCallMessage(fact.callId, fact.toolName, fact.args, fact.signature)
  }

  /** A child run begins; when it is the run being served, everything before it is forgotten. */
  function Delegate(request: Request, state: Projecting, child: RunId): Projecting {
    if request.currentRun == Some(child)
    then Projecting([], map[], map[], state.delegated + {child}, None)
    else state.(delegated := state.delegated + {child}, breath := None)
  }

  /** The block a call joins: the one of its breath, or a new one at the end. */
  function Requested(state: Projecting, call: Message, revision: nat): Projecting
    requires call.ToolCallMessage?
  {
    if state.breath.Some? && state.breath.value < |state.blocks| then
      var at := state.breath.value;
      state.(blocks := state.blocks[at := state.blocks[at].AlsoCalling(call, revision)],
             pending := state.pending[call.callId := at],
             positions := state.positions[call.callId := at])
    else
      var at := |state.blocks|;
      state.(blocks := state.blocks + [PendingCall(call, revision)],
             pending := state.pending[call.callId := at],
             positions := state.positions[call.callId := at],
             breath := Some(at))
  }

  function Close(request: Request, state: Projecting, stored: Stored): Outcome
    requires stored.event.fact.ToolResultProduced?
  {
    var fact := stored.event.fact;
    if fact.callId in state.pending && state.pending[fact.callId] < |state.blocks| then
      var at := state.pending[fact.callId];
      var answered := state.blocks[at].AnsweredBy(Answered(request, stored), stored.revision);
      Going(state.(blocks := state.blocks[at := answered], pending := state.pending - {fact.callId}))
    else
      Orphan(fact.callId, fact.toolName)
  }

  function Pin(request: Request, state: Projecting, stored: Stored): Projecting
    requires stored.event.fact.SkillActivated?
  {
    var callId := stored.event.fact.callId;
    if IsActive(request, stored) && callId in state.positions && state.positions[callId] < |state.blocks| then
      var at := state.positions[callId];
      state.(blocks := state.blocks[at := state.blocks[at].AsSkill()])
    else
      state
  }

  function Step(request: Request, state: Projecting, stored: Stored): Outcome {
    var fact := stored.event.fact;
    if fact.DelegationStarted? then Going(Delegate(request, state, fact.childRunId))
    else if BelongsToAnother(request, state.delegated, stored) then Going(state)
    else if fact.ToolCallRequested? then Going(Requested(state, Call(fact), stored.revision))
    else if !IsConversational(fact) then Going(state)
    else
      var silent := state.(breath := None);
      if fact.UserMessageReceived? then
        Going(silent.(blocks := silent.blocks + [ConversationBlock(Said(request, stored), stored.revision)]))
      else if fact.AssistantMessageProduced? then
        Going(if fact.text == "" then silent
              else silent.(blocks := silent.blocks + [ConversationBlock(AssistantMessage(fact.text), stored.revision)]))
      else if fact.SkillActivated? then Going(Pin(request, silent, stored))
      else Close(request, silent, stored)
  }

  function Fold(request: Request, state: Projecting, events: seq<Stored>): Outcome
    decreases |events|
  {
    if events == [] then Going(state)
    else
      match Step(request, state, events[0])
      case Going(next) => Fold(request, next, events[1..])
      case Orphan(callId, toolName) => Orphan(callId, toolName)
  }

  function Answer(outcome: Outcome): Projection {
    match outcome
    case Going(state) => Blocks(state.blocks)
    case Orphan(callId, toolName) => OrphanToolResult(callId, toolName)
  }

  /** The blocks of a whole journal. */
  function Projected(request: Request, events: seq<Stored>): Projection {
    Answer(Fold(request, START, events))
  }

  /** The loop itself, with the variables it updates in place. */
  method Project(request: Request, events: seq<Stored>) returns (projection: Projection)
    ensures projection == Projected(request, events)
  {
    var blocks: seq<Block> := [];
    var pending: map<CallId, nat> := map[];
    var positions: map<CallId, nat> := map[];
    var delegated: set<RunId> := {};
    var breath: Option<nat> := None;

    var i := 0;
    while i < |events|
      invariant 0 <= i <= |events|
      invariant Fold(request, START, events)
             == Fold(request, Projecting(blocks, pending, positions, delegated, breath), events[i..])
    {
      var stored := events[i];
      var fact := stored.event.fact;
      assert events[i..][0] == stored && events[i..][1..] == events[i + 1..];
      i := i + 1;
      if fact.DelegationStarted? {
        delegated := delegated + {fact.childRunId};
        breath := None;
        if request.currentRun == Some(fact.childRunId) {
          blocks, pending, positions := [], map[], map[];
        }
        continue;
      }
      if stored.event.runId in delegated && request.currentRun != Some(stored.event.runId) {
        continue;
      }
      if !fact.ToolCallRequested? && IsConversational(fact) {
        breath := None;
      }
      if fact.UserMessageReceived? {
        blocks := blocks + [ConversationBlock(Said(request, stored), stored.revision)];
        continue;
      }
      if fact.AssistantMessageProduced? {
        if |fact.text| > 0 {
          blocks := blocks + [ConversationBlock(AssistantMessage(fact.text), stored.revision)];
        }
        continue;
      }
      if fact.SkillActivated? {
        if IsActive(request, stored) && fact.callId in positions {
          var at := positions[fact.callId];
          if at < |blocks| {
            blocks := blocks[at := blocks[at].AsSkill()];
          }
        }
        continue;
      }
      if fact.ToolCallRequested? {
        var at := if breath.Some? && breath.value < |blocks| then breath.value else |blocks|;
        if at == |blocks| {
          blocks := blocks + [PendingCall(Call(fact), stored.revision)];
        } else {
          blocks := blocks[at := blocks[at].AlsoCalling(Call(fact), stored.revision)];
        }
        breath := Some(at);
        pending := pending[fact.callId := at];
        positions := positions[fact.callId := at];
        continue;
      }
      if fact.ToolResultProduced? {
        if fact.callId !in pending || pending[fact.callId] >= |blocks| {
          return OrphanToolResult(fact.callId, fact.toolName);
        }
        var at := pending[fact.callId];
        blocks := blocks[at := blocks[at].AnsweredBy(Answered(request, stored), stored.revision)];
        pending := pending - {fact.callId};
      }
    }
    return Blocks(blocks);
  }
}
