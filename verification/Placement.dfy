/**
 * What a projection shows, told by the journal alone: which events are seen, which block each of them
 * lands in, and what every block then holds
 * (packages/core/src/runtime/context/context-projector.service.ts).
 */
module Placements {
  import opened Options
  import opened Journal
  import opened ContextBlocks
  import opened ContextProjector
  import opened ToolBlocks
  import opened ProjectionSplit

  // ---------------------------------------------------------------- which events are seen

  /** The runs some events delegate to. */
  ghost function Children(events: seq<Stored>): set<RunId> {
    if events == [] then {}
    else
      var fact := events[0].event.fact;
      (if fact.DelegationStarted? then {fact.childRunId} else {}) + Children(events[1..])
  }

  lemma {:induction false} FoldDelegates(request: Request, state: Projecting, events: seq<Stored>)
    requires Fold(request, state, events).Going?
    ensures Fold(request, state, events).state.delegated == state.delegated + Children(events)
    decreases |events|
  {
    if events != [] {
      FoldDelegates(request, Step(request, state, events[0]).state, events[1..]);
    }
  }

  /** An event of a run that some event before it delegated to, and that is not the run being served. */
  ghost predicate Hidden(request: Request, before: seq<Stored>, stored: Stored) {
    && !stored.event.fact.DelegationStarted?
    && stored.event.runId in Children(before)
    && request.currentRun != Some(stored.event.runId)
  }

  /** A journal without its hidden events. */
  ghost function Shown(request: Request, journal: seq<Stored>): seq<Stored> {
    if journal == [] then []
    else
      var front, last := journal[..|journal| - 1], journal[|journal| - 1];
      Shown(request, front) + (if Hidden(request, front, last) then [] else [last])
  }

  /** What is shown since the served run was last delegated to, or since the beginning. */
  ghost function Seen(request: Request, journal: seq<Stored>): seq<Stored> {
    if journal == [] then []
    else
      var front, last := journal[..|journal| - 1], journal[|journal| - 1];
      if last.event.fact.DelegationStarted? && request.currentRun == Some(last.event.fact.childRunId) then []
      else if Hidden(request, front, last) then Seen(request, front)
      else Seen(request, front) + [last]
  }

  // ---------------------------------------------------------------- where an event lands

  /** Anything said, answered, activated or delegated ends a breath; a call and everything else do not. */
  ghost predicate EndsBreath(fact: Fact) {
    || fact.UserMessageReceived? || fact.AssistantMessageProduced? || fact.ToolResultProduced?
    || fact.SkillActivated? || fact.DelegationStarted?
  }

  /** A call was made and nothing ended its breath since. */
  ghost predicate InBreath(seen: seq<Stored>) {
    seen != [] &&
    var front, fact := seen[..|seen| - 1], seen[|seen| - 1].event.fact;
    fact.ToolCallRequested? || (!EndsBreath(fact) && InBreath(front))
  }

  /** Words open a block, and so does the first call of a breath. */
  ghost predicate Opens(front: seq<Stored>, fact: Fact) {
    || fact.UserMessageReceived?
    || (fact.AssistantMessageProduced? && fact.text != "")
    || (fact.ToolCallRequested? && !InBreath(front))
  }

  /** How many blocks were opened. */
  ghost function Opened(seen: seq<Stored>): nat {
    if seen == [] then 0
    else
      var front, last := seen[..|seen| - 1], seen[|seen| - 1];
      Opened(front) + (if Opens(front, last.event.fact) then 1 else 0)
  }

  /** The block of the last call made under an id. */
  ghost function CallHome(seen: seq<Stored>, id: CallId): Option<int> {
    if seen == [] then None
    else
      var front, fact := seen[..|seen| - 1], seen[|seen| - 1].event.fact;
      if fact.ToolCallRequested? && fact.callId == id then Some(Opened(seen) - 1) else CallHome(front, id)
  }

  /** A call was made under an id, and no result of that id came since. */
  ghost predicate InFlight(seen: seq<Stored>, id: CallId) {
    seen != [] &&
    var front, fact := seen[..|seen| - 1], seen[|seen| - 1].event.fact;
    if fact.ToolCallRequested? && fact.callId == id then true
    else if fact.ToolResultProduced? && fact.callId == id then false
    else InFlight(front, id)
  }

  /** Words and calls land in the block opened last, a result in that of its call; nothing else lands anywhere. */
  ghost function Home(front: seq<Stored>, last: Stored): Option<int> {
    var fact := last.event.fact;
    if fact.ToolResultProduced? then CallHome(front, fact.callId)
    else if fact.ToolCallRequested? || Opens(front, fact) then Some(Opened(front + [last]) - 1)
    else None
  }

  /** The events that land in a block. */
  ghost function Landed(seen: seq<Stored>, at: int): seq<Stored> {
    if seen == [] then []
    else
      var front, last := seen[..|seen| - 1], seen[|seen| - 1];
      Landed(front, at) + (if Home(front, last) == Some(at) then [last] else [])
  }

  /** A skill is activated, for the whole session or for the run being served, by a call of the block. */
  ghost predicate Activates(request: Request, front: seq<Stored>, last: Stored, at: int) {
    var fact := last.event.fact;
    && fact.SkillActivated?
    && (request.currentRun.None? || fact.scope.SessionScope? || request.currentRun == Some(last.event.runId))
    && CallHome(front, fact.callId) == Some(at)
  }

  ghost predicate Pinned(request: Request, seen: seq<Stored>, at: int) {
    seen != [] &&
    var front, last := seen[..|seen| - 1], seen[|seen| - 1];
    Activates(request, front, last, at) || Pinned(request, front, at)
  }

  // ---------------------------------------------------------------- what a block holds

  /** The notes of some attachments, behind a text. */
  ghost function Noted(text: string, mark: string, notes: seq<string>): string {
    if notes == [] then text else text + mark + Join(notes)
  }

  /** What reading the attachments of an event answers; without any, nothing is read. */
  ghost function Attached(request: Request, stored: Stored, attachments: seq<Attachment>): Resolved {
    if attachments == [] then Resolved([], [])
    else
      var current := request.currentRun == Some(stored.event.runId);
      request.read(attachments, stored.revision, current, request.acceptsRemoteUrl)
  }

  /** A message says what an event recorded. */
  ghost predicate Says(request: Request, stored: Stored, message: Message) {
    match stored.event.fact
    case UserMessageReceived(text, attachments) =>
      var resolved := Attached(request, stored, attachments);
      && message.UserMessage?
      && message.text == Noted(text, "\n\n", resolved.notes) && message.media == resolved.media
    case AssistantMessageProduced(text, _) =>
      message.AssistantMessage? && message.text == text
    case ToolCallRequested(callId, toolName, args, signature) =>
      && message.ToolCallMessage? && message.callId == callId
      && message.toolName == toolName && message.args == args && message.signature == signature
    case ToolResultProduced(callId, toolName, output, failed, attachments) =>
      var resolved := Attached(request, stored, attachments);
      && message.ToolResultMessage? && message.callId == callId
      && message.toolName == toolName && message.failed == failed
      && message.output == Noted(output, "[attachments]", resolved.notes) && message.media == resolved.media
    case _ => false
  }

  ghost function Calls(events: seq<Stored>): nat {
    if events == [] then 0
    else Calls(events[..|events| - 1]) + (if events[|events| - 1].event.fact.ToolCallRequested? then 1 else 0)
  }

  ghost function Results(events: seq<Stored>): nat {
    if events == [] then 0
    else Results(events[..|events| - 1]) + (if events[|events| - 1].event.fact.ToolResultProduced? then 1 else 0)
  }

  ghost predicate AllSaid(request: Request, landed: seq<Stored>, messages: seq<Message>) {
    && |messages| == |landed|
    && forall i :: 0 <= i < |landed| ==> Says(request, landed[i], messages[i])
  }

  /** A block holds exactly the messages of the events that landed in it, in order, and what follows from them. */
  ghost predicate Holds(request: Request, landed: seq<Stored>, pinned: bool, block: Block) {
    && landed != [] && AllSaid(request, landed, block.messages)
    && block.firstRevision == landed[0].revision && block.lastRevision == landed[|landed| - 1].revision
    && (block.closed <==> Results(landed) >= Calls(landed))
    && (var opener := landed[0].event.fact;
        block.callId == (if opener.ToolCallRequested? then Some(opener.callId) else None))
    && block.pinned == pinned
    && block.category
       == (if pinned then ActiveSkills else if block.callId.Some? then ToolResults else Conversation)
  }

  // ---------------------------------------------------------------- step by step

  ghost predicate Indexes(seen: seq<Stored>, state: Projecting) {
    && (forall id :: id in state.pending <==> InFlight(seen, id))
    && (forall id :: id in state.pending ==> CallHome(seen, id) == Some(state.pending[id] as int))
    && (forall id :: id in state.positions <==> CallHome(seen, id).Some?)
    && (forall id :: id in state.positions ==> CallHome(seen, id) == Some(state.positions[id] as int))
    && (state.breath.Some? <==> InBreath(seen))
    && (state.breath.Some? ==> state.breath.value == Opened(seen) - 1)
  }

  ghost predicate Placed(request: Request, seen: seq<Stored>, blocks: seq<Block>) {
    && |blocks| == Opened(seen)
    && (forall at :: 0 <= at < |blocks| ==> Holds(request, Landed(seen, at), Pinned(request, seen, at), blocks[at]))
    && (forall at :: at >= |blocks| ==> Landed(seen, at) == [] && !Pinned(request, seen, at))
  }

  /** How the variables of a projection stand to what it has seen. */
  ghost predicate Stands(request: Request, seen: seq<Stored>, state: Projecting) {
    && Valid(state)
    && Indexes(seen, state)
    && Placed(request, seen, state.blocks)
  }

  lemma {:induction false} OpenedOneMore(front: seq<Stored>, last: Stored, after: seq<Stored>)
    requires after == front + [last]
    ensures after[..|after| - 1] == front && after[|after| - 1] == last
    ensures Opened(after) == Opened(front) + (if Opens(front, last.event.fact) then 1 else 0)
  {
  }

  lemma {:induction false} OneMore(request: Request, front: seq<Stored>, last: Stored, after: seq<Stored>)
    requires after == front + [last]
    ensures after[..|after| - 1] == front && after[|after| - 1] == last
    ensures Opened(after) == Opened(front) + (if Opens(front, last.event.fact) then 1 else 0)
    ensures forall at :: Landed(after, at) == Landed(front, at) + (if Home(front, last) == Some(at) then [last] else [])
  {
    OpenedOneMore(front, last, after);
    forall at
      ensures Landed(after, at) == Landed(front, at) + (if Home(front, last) == Some(at) then [last] else [])
    {
      assert after[..|after| - 1] == front && after[|after| - 1] == last;
    }
  }

  lemma {:induction false} CountOneMore(landed: seq<Stored>, last: Stored)
    ensures Calls(landed + [last]) == Calls(landed) + (if last.event.fact.ToolCallRequested? then 1 else 0)
    ensures Results(landed + [last]) == Results(landed) + (if last.event.fact.ToolResultProduced? then 1 else 0)
  {
    assert (landed + [last])[..|landed|] == landed;
  }

  lemma {:induction false} CountsAgree(request: Request, landed: seq<Stored>, messages: seq<Message>)
    requires AllSaid(request, landed, messages)
    ensures |CallIds(messages)| == Calls(landed) && |ResultIds(messages)| == Results(landed)
    decreases |landed|
  {
    if landed != [] {
      var n := |landed| - 1;
      CountsAgree(request, landed[..n], messages[..n]);
      assert Says(request, landed[n], messages[n]);
    }
  }

  lemma {:induction false} SaidOneMore(
    request: Request, landed: seq<Stored>, messages: seq<Message>, last: Stored, message: Message)
    requires AllSaid(request, landed, messages) && Says(request, last, message)
    ensures AllSaid(request, landed + [last], messages + [message])
  {
  }

  // ---------------------------------------------------------------- blocks that change

  lemma {:induction false} OpenerHolds(request: Request, last: Stored, block: Block, message: Message)
    requires Says(request, last, message) && !last.event.fact.ToolResultProduced?
    requires block == if message.ToolCallMessage? then PendingCall(message, last.revision)
                      else ConversationBlock(message, last.revision)
    ensures Holds(request, [last], false, block)
  {
    CountOneMore([], last);
    assert [] + [last] == [last];
    assert AllSaid(request, [last], block.messages);
  }

  lemma {:induction false} JoinerHolds(
    request: Request, landed: seq<Stored>, pinned: bool, block: Block, last: Stored, call: Message)
    requires Holds(request, landed, pinned, block) && ResultIds(block.messages) == []
    requires last.event.fact.ToolCallRequested? && Says(request, last, call)
    ensures Holds(request, landed + [last], pinned, block.AlsoCalling(call, last.revision))
  {
    CountsAgree(request, landed, block.messages);
    CountOneMore(landed, last);
    SaidOneMore(request, landed, block.messages, last, call);
  }

  lemma {:induction false} AnswerHolds(
    request: Request, landed: seq<Stored>, pinned: bool, block: Block, last: Stored, result: Message)
    requires Holds(request, landed, pinned, block)
    requires last.event.fact.ToolResultProduced? && Says(request, last, result)
    ensures Holds(request, landed + [last], pinned, block.AnsweredBy(result, last.revision))
  {
    SaidOneMore(request, landed, block.messages, last, result);
    CountsAgree(request, landed + [last], block.messages + [result]);
  }

  lemma {:induction false} SkillHolds(request: Request, landed: seq<Stored>, pinned: bool, block: Block)
    requires Holds(request, landed, pinned, block)
    ensures Holds(request, landed, true, block.AsSkill())
  {
  }

  // ---------------------------------------------------------------- events that land

  /** An event lands in one block, and pins none unless it activates a skill. */
  lemma {:induction false} Lands(request: Request, front: seq<Stored>, last: Stored, after: seq<Stored>, here: int)
    requires after == front + [last] && Home(front, last) == Some(here)
    ensures Landed(after, here) == Landed(front, here) + [last]
    ensures forall at :: at != here ==> Landed(after, at) == Landed(front, at)
    ensures forall at :: Pinned(request, after, at) == Pinned(request, front, at)
  {
    OneMore(request, front, last, after);
    forall at
      ensures Pinned(request, after, at) == Pinned(request, front, at)
    {
    }
  }

  /** The block an event lands in is the only one to change, and may be a new one. */
  lemma {:induction false} PlacedGrows(request: Request, front: seq<Stored>, blocks: seq<Block>, last: Stored,
    after: seq<Stored>, next: seq<Block>, here: nat)
    requires Placed(request, front, blocks) && after == front + [last] && Home(front, last) == Some(here)
    requires |next| == Opened(after) && here < |next| && |blocks| <= |next|
    requires here < |blocks| || (here == |blocks| && |next| == |blocks| + 1)
    requires here < |blocks| ==> |next| == |blocks|
    requires forall at :: 0 <= at < |blocks| && at != here ==> next[at] == blocks[at]
    requires Holds(request, Landed(front, here) + [last], Pinned(request, front, here), next[here])
    ensures Placed(request, after, next)
  {
    Lands(request, front, last, after, here);
    forall at | 0 <= at < |next|
      ensures Holds(request, Landed(after, at), Pinned(request, after, at), next[at])
    {
      if at != here {
        assert Holds(request, Landed(front, at), Pinned(request, front, at), blocks[at]);
      }
    }
  }

  lemma {:induction false} TalkIsPlaced(request: Request, front: seq<Stored>, blocks: seq<Block>, last: Stored,
    after: seq<Stored>, message: Message)
    requires Placed(request, front, blocks) && after == front + [last]
    requires Says(request, last, message) && (message.UserMessage? || (message.AssistantMessage? && message.text != ""))
    ensures Placed(request, after, blocks + [ConversationBlock(message, last.revision)])
  {
    var block, here := ConversationBlock(message, last.revision), |blocks|;
    OpenedOneMore(front, last, after);
    OpenerHolds(request, last, block, message);
    assert Landed(front, here) + [last] == [last];
    PlacedGrows(request, front, blocks, last, after, blocks + [block], here);
  }

  lemma {:induction false} CallIsPlaced(request: Request, front: seq<Stored>, state: Projecting, last: Stored,
    after: seq<Stored>, call: Message)
    requires Placed(request, front, state.blocks) && Breathing(state) && after == front + [last]
    requires state.breath.Some? <==> InBreath(front)
    requires state.breath.Some? ==> state.breath.value == Opened(front) - 1
    requires last.event.fact.ToolCallRequested? && call == Call(last.event.fact)
    ensures Placed(request, after, Requested(state, call, last.revision).blocks)
  {
    OpenedOneMore(front, last, after);
    if state.breath.Some? {
      JoinIsPlaced(request, front, state.blocks, last, after, call, state.breath.value);
    } else {
      OpeningIsPlaced(request, front, state.blocks, last, after, call);
    }
  }

  lemma {:induction false} JoinIsPlaced(request: Request, front: seq<Stored>, blocks: seq<Block>, last: Stored,
    after: seq<Stored>, call: Message, here: nat)
    requires Placed(request, front, blocks) && after == front + [last] && here == |blocks| - 1
    requires ResultIds(blocks[here].messages) == []
    requires last.event.fact.ToolCallRequested? && call == Call(last.event.fact)
    requires Home(front, last) == Some(here as int) && Opened(after) == |blocks|
    ensures Placed(request, after, blocks[here := blocks[here].AlsoCalling(call, last.revision)])
  {
    var joined := blocks[here].AlsoCalling(call, last.revision);
    JoinerHolds(request, Landed(front, here), Pinned(request, front, here), blocks[here], last, call);
    PlacedGrows(request, front, blocks, last, after, blocks[here := joined], here);
  }

  lemma {:induction false} OpeningIsPlaced(request: Request, front: seq<Stored>, blocks: seq<Block>, last: Stored,
    after: seq<Stored>, call: Message)
    requires Placed(request, front, blocks) && after == front + [last]
    requires last.event.fact.ToolCallRequested? && call == Call(last.event.fact)
    requires Home(front, last) == Some(|blocks| as int) && Opened(after) == |blocks| + 1
    ensures Placed(request, after, blocks + [PendingCall(call, last.revision)])
  {
    OpenerHolds(request, last, PendingCall(call, last.revision), call);
    assert Landed(front, |blocks|) + [last] == [last];
    PlacedGrows(request, front, blocks, last, after, blocks + [PendingCall(call, last.revision)], |blocks|);
  }

  lemma {:induction false} ResultIsPlaced(request: Request, front: seq<Stored>, state: Projecting, last: Stored, after: seq<Stored>)
    requires Placed(request, front, state.blocks) && Indexed(state) && after == front + [last]
    requires last.event.fact.ToolResultProduced? && last.event.fact.callId in state.pending
    requires CallHome(front, last.event.fact.callId) == Some(state.pending[last.event.fact.callId] as int)
    ensures Close(request, state, last).Going?
    ensures Placed(request, after, Close(request, state, last).state.blocks)
  {
    OpenedOneMore(front, last, after);
    var here := state.pending[last.event.fact.callId];
    AnswerHolds(request, Landed(front, here), Pinned(request, front, here), state.blocks[here], last, Answered(request, last));
    PlacedGrows(request, front, state.blocks, last, after, Close(request, state, last).state.blocks, here);
  }

  lemma {:induction false} SkillLandsNowhere(request: Request, front: seq<Stored>, last: Stored, after: seq<Stored>)
    requires after == front + [last] && last.event.fact.SkillActivated?
    ensures Opened(after) == Opened(front)
    ensures forall at :: Landed(after, at) == Landed(front, at)
    ensures forall at :: Pinned(request, after, at) == (Activates(request, front, last, at) || Pinned(request, front, at))
  {
    OneMore(request, front, last, after);
    forall at
      ensures Landed(after, at) == Landed(front, at)
    {
    }
    forall at
      ensures Pinned(request, after, at) == (Activates(request, front, last, at) || Pinned(request, front, at))
    {
    }
  }

  lemma {:induction false} SkillIsPlaced(request: Request, front: seq<Stored>, state: Projecting, last: Stored, after: seq<Stored>)
    requires Placed(request, front, state.blocks) && Indexed(state) && after == front + [last]
    requires last.event.fact.SkillActivated?
    requires var id := last.event.fact.callId;
      (id in state.positions <==> CallHome(front, id).Some?)
      && (id in state.positions ==> CallHome(front, id) == Some(state.positions[id] as int))
    ensures Placed(request, after, Pin(request, state, last).blocks)
  {
    SkillLandsNowhere(request, front, last, after);
    var id, next := last.event.fact.callId, Pin(request, state, last).blocks;
    forall at | 0 <= at < |next|
      ensures Holds(request, Landed(after, at), Pinned(request, after, at), next[at])
    {
      assert Holds(request, Landed(front, at), Pinned(request, front, at), state.blocks[at]);
      SkillHolds(request, Landed(front, at), Pinned(request, front, at), state.blocks[at]);
    }
  }

  lemma {:induction false} QuietIsPlaced(request: Request, front: seq<Stored>, blocks: seq<Block>, last: Stored, after: seq<Stored>)
    requires Placed(request, front, blocks) && after == front + [last]
    requires Home(front, last).None? && !last.event.fact.SkillActivated? && !Opens(front, last.event.fact)
    ensures Placed(request, after, blocks)
  {
    OneMore(request, front, last, after);
    forall at
      ensures Landed(after, at) == Landed(front, at) && Pinned(request, after, at) == Pinned(request, front, at)
    {
    }
  }

  lemma {:induction false} IndexGoesOn(request: Request, front: seq<Stored>, state: Projecting, last: Stored,
    after: seq<Stored>, next: Projecting, id: CallId)
    requires |after| == |front| + 1 && after[..|front|] == front && after[|front|] == last
    requires Indexes(front, state) && Step(request, state, last) == Going(next)
    requires Opened(front) == |state.blocks| && Opened(after) == |next.blocks|
    requires state.breath.Some? ==> state.breath.value < |state.blocks|
    requires last.event.fact.DelegationStarted? || !BelongsToAnother(request, state.delegated, last)
    requires !Restarts(request, last)
    ensures id in next.pending <==> InFlight(after, id)
    ensures id in next.positions <==> CallHome(after, id).Some?
    ensures id in next.pending ==> CallHome(after, id) == Some(next.pending[id] as int)
    ensures id in next.positions ==> CallHome(after, id) == Some(next.positions[id] as int)
  {
    assert id in state.pending <==> InFlight(front, id);
    assert id in state.positions <==> CallHome(front, id).Some?;
  }

  lemma {:induction false} BreathGoesOn(request: Request, front: seq<Stored>, state: Projecting, last: Stored,
    after: seq<Stored>, next: Projecting)
    requires after == front + [last] && Step(request, state, last) == Going(next)
    requires Opened(front) == |state.blocks| && Opened(after) == |next.blocks|
    requires state.breath.Some? <==> InBreath(front)
    requires state.breath.Some? ==> state.breath.value == |state.blocks| - 1
    requires last.event.fact.DelegationStarted? || !BelongsToAnother(request, state.delegated, last)
    requires !Restarts(request, last)
    ensures next.breath.Some? <==> InBreath(after)
    ensures next.breath.Some? ==> next.breath.value == |next.blocks| - 1
  {
    assert after[..|after| - 1] == front && after[|after| - 1] == last;
  }

  lemma {:induction false} IndexesGoOn(request: Request, front: seq<Stored>, state: Projecting, last: Stored,
    after: seq<Stored>, next: Projecting)
    requires Indexes(front, state) && after == front + [last] && Step(request, state, last) == Going(next)
    requires Opened(front) == |state.blocks| && Opened(after) == |next.blocks|
    requires state.breath.Some? ==> state.breath.value < |state.blocks|
    requires last.event.fact.DelegationStarted? || !BelongsToAnother(request, state.delegated, last)
    requires !Restarts(request, last)
    ensures Indexes(after, next)
  {
    BreathGoesOn(request, front, state, last, after, next);
    forall id
      ensures id in next.pending <==> InFlight(after, id)
      ensures id in next.positions <==> CallHome(after, id).Some?
      ensures id in next.pending ==> CallHome(after, id) == Some(next.pending[id] as int)
      ensures id in next.positions ==> CallHome(after, id) == Some(next.positions[id] as int)
    {
      assert after[..|front|] == front;
      IndexGoesOn(request, front, state, last, after, next, id);
    }
  }

  /** One more event that is seen. */
  lemma {:induction false} SeenStands(request: Request, front: seq<Stored>, state: Projecting, last: Stored,
    after: seq<Stored>, next: Projecting)
    requires Stands(request, front, state) && after == front + [last] && Step(request, state, last) == Going(next)
    requires last.event.fact.DelegationStarted? || !BelongsToAnother(request, state.delegated, last)
    requires !Restarts(request, last)
    ensures Stands(request, after, next)
  {
    StepKeepsBlocks(request, state, last);
    SeenIsPlaced(request, front, state, last, after, next);
    IndexesGoOn(request, front, state, last, after, next);
  }

  lemma {:induction false} SeenIsPlaced(request: Request, front: seq<Stored>, state: Projecting, last: Stored,
    after: seq<Stored>, next: Projecting)
    requires Stands(request, front, state) && after == front + [last] && Step(request, state, last) == Going(next)
    requires last.event.fact.DelegationStarted? || !BelongsToAnother(request, state.delegated, last)
    requires !Restarts(request, last)
    ensures Placed(request, after, next.blocks)
  {
    var fact := last.event.fact;
    if fact.UserMessageReceived? {
      TalkIsPlaced(request, front, state.blocks, last, after, Said(request, last));
    } else if fact.AssistantMessageProduced? && fact.text != "" {
      TalkIsPlaced(request, front, state.blocks, last, after, AssistantMessage(fact.text));
    } else if fact.ToolCallRequested? {
      CallIsPlaced(request, front, state, last, after, Call(fact));
    } else if fact.ToolResultProduced? {
      ResultIsPlaced(request, front, state, last, after);
    } else if fact.SkillActivated? {
      SkillIsPlaced(request, front, state, last, after);
    } else {
      QuietIsPlaced(request, front, state.blocks, last, after);
    }
  }

  // ---------------------------------------------------------------- every journal

  /** A result that comes to a projection without its call in flight. */
  ghost predicate Unasked(request: Request, before: seq<Stored>, stored: Stored) {
    && stored.event.fact.ToolResultProduced?
    && !Hidden(request, before, stored)
    && !InFlight(Seen(request, before), stored.event.fact.callId)
  }

  ghost predicate AllAsked(request: Request, journal: seq<Stored>) {
    forall n :: 0 <= n < |journal| ==> !Unasked(request, journal[..n], journal[n])
  }

  lemma {:induction false} StepMeans(request: Request, front: seq<Stored>, last: Stored, state: Projecting)
    requires state.delegated == Children(front) && Stands(request, Seen(request, front), state)
    ensures Step(request, state, last).Orphan? <==> Unasked(request, front, last)
    ensures Step(request, state, last).Orphan? ==>
      Step(request, state, last) == Orphan(last.event.fact.callId, last.event.fact.toolName)
    ensures Step(request, state, last).Going? ==>
      Stands(request, Seen(request, front + [last]), Step(request, state, last).state)
  {
    var journal, seen := front + [last], Seen(request, front);
    assert journal[..|journal| - 1] == front && journal[|journal| - 1] == last;
    assert BelongsToAnother(request, state.delegated, last) && !last.event.fact.DelegationStarted?
      <==> Hidden(request, front, last);
    if Hidden(request, front, last) {
    } else if Restarts(request, last) {
      NothingStands(request, state.delegated + {last.event.fact.childRunId});
    } else if Step(request, state, last).Going? {
      SeenStands(request, seen, state, last, seen + [last], Step(request, state, last).state);
    }
  }

  lemma {:induction false} NothingStands(request: Request, delegated: set<RunId>)
    ensures Stands(request, [], Projecting([], map[], map[], delegated, None))
  {
  }

  /** A projection stops at the first result whose call is not in flight. */
  ghost predicate StopsAt(request: Request, journal: seq<Stored>, n: int) {
    0 <= n < |journal| && AllAsked(request, journal[..n]) && Unasked(request, journal[..n], journal[n])
  }

  lemma {:induction false} AskedOneMore(request: Request, front: seq<Stored>, last: Stored, journal: seq<Stored>)
    requires journal == front + [last]
    ensures AllAsked(request, journal) <==> AllAsked(request, front) && !Unasked(request, front, last)
    ensures forall n :: StopsAt(request, front, n) ==> StopsAt(request, journal, n) && journal[n] == front[n]
    ensures AllAsked(request, front) && Unasked(request, front, last) ==> StopsAt(request, journal, |front|)
  {
    assert journal[..|front|] == front;
    assert forall n :: 0 <= n < |front| ==> journal[..n] == front[..n];
  }

  lemma {:induction false} FoldMeans(request: Request, journal: seq<Stored>)
    ensures match Fold(request, START, journal)
      case Going(state) =>
        AllAsked(request, journal) && state.delegated == Children(journal) && Stands(request, Seen(request, journal), state)
      case Orphan(callId, toolName) =>
        exists n :: StopsAt(request, journal, n)
          && callId == journal[n].event.fact.callId && toolName == journal[n].event.fact.toolName
    decreases |journal|
  {
    if journal == [] {
      NothingStands(request, {});
    } else {
      var front, last := journal[..|journal| - 1], journal[|journal| - 1];
      assert journal == front + [last];
      FoldMeans(request, front);
      FoldAppend(request, START, front, [last]);
      AskedOneMore(request, front, last, journal);
      match Fold(request, START, front)
      case Going(state) =>
        FoldOne(request, state, last);
        StepMeans(request, front, last, state);
        if Fold(request, START, journal).Going? {
          FoldDelegates(request, START, journal);
        }
      case Orphan(_, _) =>
    }
  }

  /**
   * Every projection: it stops exactly at the first result, of those not hidden, whose call is not in
   * flight; otherwise its blocks are those the seen events open, each holding what landed in it.
   */
  lemma {:induction false} ProjectsWhatIsSeen(request: Request, journal: seq<Stored>)
    ensures match Projected(request, journal)
      case Blocks(blocks) =>
        AllAsked(request, journal) && Placed(request, Seen(request, journal), blocks)
      case OrphanToolResult(callId, toolName) =>
        exists n :: StopsAt(request, journal, n)
          && callId == journal[n].event.fact.callId && toolName == journal[n].event.fact.toolName
  {
    FoldMeans(request, journal);
  }

  /** Hidden events change nothing, failures included: erasing them all leaves the same projection. */
  lemma {:induction false} HiddenLeavesNoTrace(request: Request, journal: seq<Stored>)
    ensures Fold(request, START, Shown(request, journal)) == Fold(request, START, journal)
    ensures Projected(request, Shown(request, journal)) == Projected(request, journal)
    decreases |journal|
  {
    if journal != [] {
      var front, last := journal[..|journal| - 1], journal[|journal| - 1];
      assert journal == front + [last];
      HiddenLeavesNoTrace(request, front);
      FoldAppend(request, START, front, [last]);
      FoldAppend(request, START, Shown(request, front), [last]);
      if Hidden(request, front, last) {
        assert Shown(request, front) + [] == Shown(request, front);
        if Fold(request, START, front).Going? {
          FoldDelegates(request, START, front);
          FoldOne(request, Fold(request, START, front).state, last);
        }
      }
    }
  }
}
