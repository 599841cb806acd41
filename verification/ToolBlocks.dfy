/**
 * What holds of the tool blocks after projecting any journal at all: calls before results, every
 * result answering a call of its own block, and an exact account of what is still waited for.
 */
module ToolBlocks {
  import opened Options
  import opened Journal
  import opened ContextBlocks
  import opened ContextProjector

  /** A run of calls followed by a run of results. */
  ghost predicate CallsThenResults(messages: seq<Message>) {
    forall i :: 0 <= i < |messages| ==>
      if i < |CallIds(messages)| then messages[i].ToolCallMessage? else messages[i].ToolResultMessage?
  }

  /** The shape of one block on its own. */
  ghost predicate Shaped(block: Block) {
    if block.callId.None? then
      block.closed && CallIds(block.messages) == [] && ResultIds(block.messages) == []
    else
      && CallsThenResults(block.messages)
      && (block.closed <==> |ResultIds(block.messages)| >= |CallIds(block.messages)|)
  }

  /** The calls in flight that point at one block. */
  ghost function Waiting(pending: map<CallId, nat>, at: nat): set<CallId> {
    set id | id in pending && pending[id] == at
  }

  /** Results and calls still in flight are all calls of the block, each counted as often as it occurs. */
  ghost predicate Accounts(block: Block, waiting: set<CallId>) {
    multiset(ResultIds(block.messages)) + multiset(waiting) <= multiset(CallIds(block.messages))
  }

  ghost predicate Covers(state: Projecting, at: nat)
    requires at < |state.blocks|
  {
    Accounts(state.blocks[at], Waiting(state.pending, at))
  }

  /** Nothing else was ever called in the block. */
  ghost predicate Balanced(state: Projecting, at: nat)
    requires at < |state.blocks|
  {
    var messages := state.blocks[at].messages;
    multiset(ResultIds(messages)) + multiset(Waiting(state.pending, at)) == multiset(CallIds(messages))
  }

  ghost predicate Indexed(state: Projecting) {
    && (forall id :: id in state.pending ==> state.pending[id] < |state.blocks|)
    && (forall id :: id in state.positions ==> state.positions[id] < |state.blocks|)
  }

  /** While a breath lasts, its block is a tool block nobody answered and the last call of it is in flight. */
  ghost predicate Breathing(state: Projecting) {
    state.breath.Some? ==>
      && state.breath.value < |state.blocks|
      && state.blocks[state.breath.value].callId.Some?
      && ResultIds(state.blocks[state.breath.value].messages) == []
      && Waiting(state.pending, state.breath.value) != {}
  }

  ghost predicate Valid(state: Projecting) {
    && Indexed(state)
    && Breathing(state)
    && (forall at :: 0 <= at < |state.blocks| ==> Shaped(state.blocks[at]))
    && (forall at :: 0 <= at < |state.blocks| ==> Covers(state, at))
  }

  lemma {:induction false} StepKeepsBlocks(request: Request, state: Projecting, stored: Stored)
    requires Valid(state)
    requires Step(request, state, stored).Going?
    ensures Valid(Step(request, state, stored).state)
  {
    var fact := stored.event.fact;
    var next := Step(request, state, stored).state;
    if fact.DelegationStarted? {
      assert forall at :: 0 <= at < |next.blocks| ==> next.blocks[at] == state.blocks[at] && Covers(state, at);
    } else if BelongsToAnother(request, state.delegated, stored) {
    } else if fact.ToolCallRequested? {
      RequestKeepsBlocks(state, Call(fact), stored.revision);
    } else if !IsConversational(fact) {
    } else {
      var silent := state.(breath := None);
      assert forall at :: 0 <= at < |state.blocks| ==> Covers(state, at) ==> Covers(silent, at);
      assert Valid(silent);
      if fact.UserMessageReceived? {
        TalkKeepsBlocks(silent, Said(request, stored), stored.revision);
      } else if fact.AssistantMessageProduced? {
        if fact.text != "" {
          TalkKeepsBlocks(silent, AssistantMessage(fact.text), stored.revision);
        }
      } else if fact.SkillActivated? {
        PinKeepsBlocks(request, silent, stored);
      } else {
        CloseKeepsBlocks(request, silent, stored);
      }
    }
  }

  lemma {:induction false} TalkKeepsBlocks(state: Projecting, message: Message, revision: nat)
    requires Valid(state) && state.breath.None?
    requires message.UserMessage? || message.AssistantMessage?
    ensures Valid(state.(blocks := state.blocks + [ConversationBlock(message, revision)]))
  {
    var block := ConversationBlock(message, revision);
    var next := state.(blocks := state.blocks + [block]);
    IdsOfOneMore([], message);
    assert block.messages == [] + [message];
    assert Waiting(state.pending, |state.blocks|) == {};
    forall at | 0 <= at < |next.blocks| ensures Shaped(next.blocks[at]) && Covers(next, at) {
      if at < |state.blocks| {
        assert Shaped(state.blocks[at]) && Covers(state, at);
      }
    }
  }

  lemma {:induction false} PinKeepsBlocks(request: Request, state: Projecting, stored: Stored)
    requires Valid(state) && state.breath.None?
    requires stored.event.fact.SkillActivated?
    ensures Valid(Pin(request, state, stored))
  {
    var next := Pin(request, state, stored);
    forall at | 0 <= at < |next.blocks| ensures Shaped(next.blocks[at]) && Covers(next, at) {
      assert Shaped(state.blocks[at]) && Covers(state, at);
    }
  }

  /** One more call before any result keeps the shape, and the call itself is what is waited for. */
  lemma {:induction false} CallFits(block: Block, before: set<CallId>, call: Message, revision: nat)
    requires block.callId.Some? && Shaped(block) && call.ToolCallMessage?
    requires ResultIds(block.messages) == [] && Accounts(block, before)
    ensures var after := block.AlsoCalling(call, revision);
      && Shaped(after) && ResultIds(after.messages) == [] && Accounts(after, before + {call.callId})
  {
    IdsOfOneMore(block.messages, call);
  }

  /** One more result takes its call out of those waited for. */
  lemma {:induction false} ResultFits(block: Block, before: set<CallId>, result: Message, revision: nat)
    requires block.callId.Some? && Shaped(block) && result.ToolResultMessage?
    requires result.callId in before && Accounts(block, before)
    ensures Shaped(block.AnsweredBy(result, revision))
    ensures Accounts(block.AnsweredBy(result, revision), before - {result.callId})
  {
    IdsOfOneMore(block.messages, result);
    assert multiset(before) == multiset(before - {result.callId}) + multiset{result.callId};
  }

  /** A block that did not change, and that no more calls in flight point at, stays accounted for. */
  lemma {:induction false} FewerWait(block: Block, before: set<CallId>, after: set<CallId>)
    requires Accounts(block, before) && after <= before
    ensures Accounts(block, after)
  {
    assert multiset(after) <= multiset(before);
  }

  lemma {:induction false} RequestedBlock(state: Projecting, call: Message, revision: nat, here: nat)
    requires Valid(state) && call.ToolCallMessage?
    requires here == if state.breath.Some? then state.breath.value else |state.blocks|
    ensures var block := Requested(state, call, revision).blocks[here];
      && block.callId.Some? && Shaped(block) && ResultIds(block.messages) == []
      && Accounts(block, Waiting(state.pending, here) + {call.callId})
  {
    if state.breath.Some? {
      assert Shaped(state.blocks[here]) && Covers(state, here);
      CallFits(state.blocks[here], Waiting(state.pending, here), call, revision);
    } else {
      assert Waiting(state.pending, here) == {};
      assert PendingCall(call, revision).messages == [call];
      assert CallIds([call]) == [call.callId] && ResultIds([call]) == [];
    }
  }

  lemma {:induction false} RequestKeepsBlocks(state: Projecting, call: Message, revision: nat)
    requires Valid(state) && call.ToolCallMessage?
    ensures Valid(Requested(state, call, revision))
  {
    var next := Requested(state, call, revision);
    var here := if state.breath.Some? then state.breath.value else |state.blocks|;
    assert Waiting(next.pending, here) == Waiting(state.pending, here) + {call.callId} by {
      assert call.callId in Waiting(next.pending, here);
    }
    RequestedBlock(state, call, revision, here);
    forall at | 0 <= at < |next.blocks| ensures Shaped(next.blocks[at]) && Covers(next, at) {
      if at != here {
        assert Shaped(state.blocks[at]) && Covers(state, at);
        FewerWait(state.blocks[at], Waiting(state.pending, at), Waiting(next.pending, at));
      }
    }
  }

  lemma {:induction false} CloseKeepsBlocks(request: Request, state: Projecting, stored: Stored)
    requires Valid(state) && state.breath.None?
    requires stored.event.fact.ToolResultProduced?
    requires Close(request, state, stored).Going?
    ensures Valid(Close(request, state, stored).state)
  {
    var next := Close(request, state, stored).state;
    var id := stored.event.fact.callId;
    var here := state.pending[id];
    assert id in Waiting(state.pending, here);
    assert Shaped(state.blocks[here]) && Covers(state, here);
    CalledHere(state, here, id);
    ResultFits(state.blocks[here], Waiting(state.pending, here), Answered(request, stored), stored.revision);
    assert Waiting(next.pending, here) == Waiting(state.pending, here) - {id};
    forall at | 0 <= at < |next.blocks| ensures Shaped(next.blocks[at]) && Covers(next, at) {
      if at != here {
        assert Shaped(state.blocks[at]) && Covers(state, at);
        assert Waiting(next.pending, at) == Waiting(state.pending, at);
      }
    }
  }

  /** A call in flight points at a tool block. */
  lemma {:induction false} CalledHere(state: Projecting, here: nat, id: CallId)
    requires here < |state.blocks| && id in Waiting(state.pending, here)
    requires Shaped(state.blocks[here]) && Covers(state, here)
    ensures state.blocks[here].callId.Some?
  {
    assert id in multiset(Waiting(state.pending, here));
    assert id in multiset(CallIds(state.blocks[here].messages));
  }

  lemma {:induction false} FoldKeepsBlocks(request: Request, state: Projecting, events: seq<Stored>)
    requires Valid(state)
    requires Fold(request, state, events).Going?
    ensures Valid(Fold(request, state, events).state)
    decreases |events|
  {
    if events != [] {
      StepKeepsBlocks(request, state, events[0]);
      FoldKeepsBlocks(request, Step(request, state, events[0]).state, events[1..]);
    }
  }

  /** Whether an event asks, within this projection, for a call whose id is still in flight. */
  ghost predicate Reuses(request: Request, state: Projecting, stored: Stored) {
    && stored.event.fact.ToolCallRequested?
    && !BelongsToAnother(request, state.delegated, stored)
    && stored.event.fact.callId in state.pending
  }

  /** Whether an event starts the very run being served, which forgets everything before it. */
  ghost predicate Restarts(request: Request, stored: Stored) {
    stored.event.fact.DelegationStarted? && request.currentRun == Some(stored.event.fact.childRunId)
  }

  /** How many ids in flight were asked for again since the served run began. */
  ghost function Reused(request: Request, state: Projecting, sofar: nat, events: seq<Stored>): nat
    decreases |events|
  {
    if events == [] then sofar
    else
      var now :=
        if Restarts(request, events[0]) then 0
        else if Reuses(request, state, events[0]) then sofar + 1
        else sofar;
      match Step(request, state, events[0])
      case Going(next) => Reused(request, next, now, events[1..])
      case Orphan(_, _) => now
  }

  ghost function Open(block: Block): int {
    |CallIds(block.messages)| - |ResultIds(block.messages)|
  }

  /** Calls made and not answered, over all blocks. */
  ghost function Outstanding(blocks: seq<Block>): int {
    if blocks == [] then 0 else Outstanding(blocks[..|blocks| - 1]) + Open(blocks[|blocks| - 1])
  }

  lemma {:induction false} OutstandingChange(blocks: seq<Block>, at: nat, block: Block)
    requires at < |blocks|
    ensures Outstanding(blocks[at := block]) == Outstanding(blocks) - Open(blocks[at]) + Open(block)
    decreases |blocks|
  {
    var last := |blocks| - 1;
    if at == last {
      assert blocks[at := block][..last] == blocks[..last];
    } else {
      assert blocks[at := block][..last] == blocks[..last][at := block];
      OutstandingChange(blocks[..last], at, block);
    }
  }

  lemma {:induction false} OutstandingMore(blocks: seq<Block>, block: Block)
    ensures Outstanding(blocks + [block]) == Outstanding(blocks) + Open(block)
  {
    assert (blocks + [block])[..|blocks|] == blocks;
  }

  /** One event moves the outstanding calls exactly as it moves the calls in flight and the reuses. */
  lemma {:induction false} StepAccount(request: Request, state: Projecting, stored: Stored)
    requires Valid(state) && Step(request, state, stored).Going?
    ensures var next := Step(request, state, stored).state;
      Outstanding(next.blocks) - |next.pending|
      == (if Restarts(request, stored) then 0
          else Outstanding(state.blocks) - |state.pending| + (if Reuses(request, state, stored) then 1 else 0))
  {
    var fact := stored.event.fact;
    if fact.DelegationStarted? || BelongsToAnother(request, state.delegated, stored) {
    } else if fact.ToolCallRequested? {
      RequestAccount(state, Call(fact), stored.revision);
    } else if fact.UserMessageReceived? {
      TalkAccount(state.blocks, Said(request, stored), stored.revision);
    } else if fact.AssistantMessageProduced? {
      TalkAccount(state.blocks, AssistantMessage(fact.text), stored.revision);
    } else if fact.SkillActivated? {
      PinAccount(request, state.(breath := None), stored);
    } else if fact.ToolResultProduced? {
      CloseAccount(request, state.(breath := None), stored);
    }
  }

  lemma {:induction false} PinAccount(request: Request, state: Projecting, stored: Stored)
    requires stored.event.fact.SkillActivated?
    ensures Outstanding(Pin(request, state, stored).blocks) == Outstanding(state.blocks)
    ensures Pin(request, state, stored).pending == state.pending
  {
    var fact := stored.event.fact;
    if fact.callId in state.positions && state.positions[fact.callId] < |state.blocks| {
      var at := state.positions[fact.callId];
      OutstandingChange(state.blocks, at, state.blocks[at].AsSkill());
    }
  }

  lemma {:induction false} CloseAccount(request: Request, state: Projecting, stored: Stored)
    requires stored.event.fact.ToolResultProduced?
    requires Close(request, state, stored).Going?
    ensures var next := Close(request, state, stored).state;
      Outstanding(next.blocks) - |next.pending| == Outstanding(state.blocks) - |state.pending|
  {
    var id := stored.event.fact.callId;
    var at := state.pending[id];
    var answered := Answered(request, stored);
    IdsOfOneMore(state.blocks[at].messages, answered);
    OutstandingChange(state.blocks, at, state.blocks[at].AnsweredBy(answered, stored.revision));
    assert state.pending == (state.pending - {id})[id := at];
  }

  lemma {:induction false} TalkAccount(blocks: seq<Block>, message: Message, revision: nat)
    requires message.UserMessage? || message.AssistantMessage?
    ensures Outstanding(blocks + [ConversationBlock(message, revision)]) == Outstanding(blocks)
  {
    OutstandingMore(blocks, ConversationBlock(message, revision));
    IdsOfOneMore([], message);
    assert [message] == [] + [message];
  }

  lemma {:induction false} RequestAccount(state: Projecting, call: Message, revision: nat)
    requires call.ToolCallMessage?
    requires state.breath.Some? ==> state.breath.value < |state.blocks|
    ensures var next := Requested(state, call, revision);
      Outstanding(next.blocks) - |next.pending|
      == Outstanding(state.blocks) - |state.pending| + (if call.callId in state.pending then 1 else 0)
  {
    var at := if state.breath.Some? then state.breath.value else |state.blocks|;
    if state.breath.Some? {
      JoiningCounts(state.blocks, at, call, revision);
    } else {
      OpeningCounts(state.blocks, call, revision);
    }
    assert |state.pending[call.callId := at]| == |state.pending| + (if call.callId in state.pending then 0 else 1);
  }

  lemma {:induction false} JoiningCounts(blocks: seq<Block>, at: nat, call: Message, revision: nat)
    requires at < |blocks| && call.ToolCallMessage?
    ensures Outstanding(blocks[at := blocks[at].AlsoCalling(call, revision)]) == Outstanding(blocks) + 1
  {
    var joined := blocks[at].AlsoCalling(call, revision);
    assert Open(joined) == Open(blocks[at]) + 1 by {
      IdsOfOneMore(blocks[at].messages, call);
    }
    OutstandingChange(blocks, at, joined);
  }

  lemma {:induction false} OpeningCounts(blocks: seq<Block>, call: Message, revision: nat)
    requires call.ToolCallMessage?
    ensures Outstanding(blocks + [PendingCall(call, revision)]) == Outstanding(blocks) + 1
  {
    assert Open(PendingCall(call, revision)) == 1 by {
      IdsOfOneMore([], call);
      assert [call] == [] + [call];
    }
    OutstandingMore(blocks, PendingCall(call, revision));
  }

  lemma {:induction false} FoldAccount(request: Request, state: Projecting, sofar: nat, events: seq<Stored>)
    requires Valid(state) && Fold(request, state, events).Going?
    requires Outstanding(state.blocks) == |state.pending| + sofar
    ensures var end := Fold(request, state, events).state;
      Outstanding(end.blocks) == |end.pending| + Reused(request, state, sofar, events)
    decreases |events|
  {
    if events != [] {
      StepAccount(request, state, events[0]);
      StepKeepsBlocks(request, state, events[0]);
      var now :=
        if Restarts(request, events[0]) then 0
        else if Reuses(request, state, events[0]) then sofar + 1
        else sofar;
      FoldAccount(request, Step(request, state, events[0]).state, now, events[1..]);
    }
  }

  /** The slack of a block: calls neither answered nor in flight. */
  ghost function Slack(state: Projecting, at: nat): int
    requires at < |state.blocks|
  {
    Open(state.blocks[at]) - |Waiting(state.pending, at)|
  }

  ghost function TotalSlack(state: Projecting, n: nat): int
    requires n <= |state.blocks|
  {
    if n == 0 then 0 else TotalSlack(state, n - 1) + Slack(state, n - 1)
  }

  lemma {:induction false} SlackOfOne(state: Projecting, at: nat)
    requires at < |state.blocks| && Covers(state, at)
    ensures Slack(state, at) >= 0
    ensures Slack(state, at) == 0 <==> Balanced(state, at)
  {
    var messages := state.blocks[at].messages;
    var used := multiset(ResultIds(messages)) + multiset(Waiting(state.pending, at));
    var made := multiset(CallIds(messages));
    assert made == used + (made - used);
    assert |made| == |CallIds(messages)|;
    assert |used| == |ResultIds(messages)| + |Waiting(state.pending, at)|;
  }

  /** The slacks add up to what is outstanding and not in flight. */
  lemma {:induction false} SlackAddsUp(state: Projecting, n: nat)
    requires n <= |state.blocks|
    ensures TotalSlack(state, n)
         == Outstanding(state.blocks[..n]) - |set id | id in state.pending && state.pending[id] < n|
  {
    var below := set id | id in state.pending && state.pending[id] < n;
    if n == 0 {
      assert below == {};
    } else {
      SlackAddsUp(state, n - 1);
      var rest := set id | id in state.pending && state.pending[id] < n - 1;
      assert below == rest + Waiting(state.pending, n - 1);
      assert rest !! Waiting(state.pending, n - 1);
      assert state.blocks[..n] == state.blocks[..n - 1] + [state.blocks[n - 1]];
      OutstandingMore(state.blocks[..n - 1], state.blocks[n - 1]);
    }
  }

  lemma {:induction false} NoSlackAnywhere(state: Projecting, n: nat)
    requires n <= |state.blocks|
    requires forall at :: 0 <= at < n ==> Slack(state, at) >= 0
    ensures TotalSlack(state, n) >= 0
    ensures TotalSlack(state, n) == 0 <==> forall at :: 0 <= at < n ==> Slack(state, at) == 0
  {
    if n > 0 {
      NoSlackAnywhere(state, n - 1);
    }
  }

  /**
   * After any journal that projects: every block has its shape, results only ever answer calls of
   * their own block, and the calls left open exceed the calls in flight by exactly the number of
   * in-flight ids that were asked for again.
   */
  lemma {:induction false} ProjectedAccount(request: Request, journal: seq<Stored>)
    requires Fold(request, START, journal).Going?
    ensures var end := Fold(request, START, journal).state;
      && (forall at :: 0 <= at < |end.blocks| ==> Shaped(end.blocks[at]) && Covers(end, at))
      && Outstanding(end.blocks) == |end.pending| + Reused(request, START, 0, journal)
  {
    FoldKeepsBlocks(request, START, journal);
    FoldAccount(request, START, 0, journal);
  }

  /** Calls are answered or in flight, block by block, exactly when no in-flight id was asked for again. */
  lemma {:induction false} BalancedExactlyWithoutReuse(request: Request, journal: seq<Stored>)
    requires Fold(request, START, journal).Going?
    ensures var end := Fold(request, START, journal).state;
      (forall at :: 0 <= at < |end.blocks| ==> Balanced(end, at)) <==> Reused(request, START, 0, journal) == 0
  {
    ProjectedAccount(request, journal);
    FoldKeepsBlocks(request, START, journal);
    var end := Fold(request, START, journal).state;
    var n := |end.blocks|;
    SlackAddsUp(end, n);
    forall at | 0 <= at < n ensures Slack(end, at) >= 0 && (Slack(end, at) == 0 <==> Balanced(end, at)) {
      assert Covers(end, at);
      SlackOfOne(end, at);
    }
    NoSlackAnywhere(end, n);
    assert end.blocks[..n] == end.blocks;
    assert (set id | id in end.pending && end.pending[id] < n) == end.pending.Keys;
  }

  const ASKED := Stored(1, Event("e-1", "r", ToolCallRequested("c", "t", "{}", None)))
  const ASKED_AGAIN := Stored(2, Event("e-2", "r", ToolCallRequested("c", "t", "{}", None)))
  const ANSWERED := Stored(3, Event("e-3", "r", ToolResultProduced("c", "t", "{}", false, [])))

  /** One does not: asked twice and answered once, a block waits for a call that is no longer in flight. */
  lemma {:induction false} AskedTwiceStaysOpen(request: Request) returns (journal: seq<Stored>)
    ensures journal == [ASKED, ASKED_AGAIN, ANSWERED]
    ensures Fold(request, START, journal).Going? && Reused(request, START, 0, journal) == 1
    ensures var end := Fold(request, START, journal).state;
      && end.pending == map[] && |end.blocks| == 1
      && !end.blocks[0].closed && !Balanced(end, 0)
  {
    journal := [ASKED, ASKED_AGAIN, ANSWERED];
    var one, two, three := AskedTwice(request);
    AlongThree(request, START, one, two, three, ASKED, ASKED_AGAIN, ANSWERED);
    BalancedExactlyWithoutReuse(request, journal);
    FoldKeepsBlocks(request, START, journal);
    SlackOfOne(three, 0);
  }

  lemma {:induction false} AskedTwice(request: Request) returns (one: Projecting, two: Projecting, three: Projecting)
    ensures Step(request, START, ASKED) == Going(one) && !Reuses(request, START, ASKED)
    ensures Step(request, one, ASKED_AGAIN) == Going(two) && Reuses(request, one, ASKED_AGAIN)
    ensures Step(request, two, ANSWERED) == Going(three)
    ensures three.pending == map[] && |three.blocks| == 1
  {
    one := Requested(START, Call(ASKED.event.fact), 1);
    two := Requested(one, Call(ASKED_AGAIN.event.fact), 2);
    three := Close(request, two.(breath := None), ANSWERED).state;
  }

  /** Where three events lead a projection, and how often they reuse a call. */
  lemma {:induction false} AlongThree(
    request: Request, s0: Projecting, s1: Projecting, s2: Projecting, s3: Projecting, e1: Stored, e2: Stored, e3: Stored)
    requires Step(request, s0, e1) == Going(s1) && Step(request, s1, e2) == Going(s2) && Step(request, s2, e3) == Going(s3)
    requires !Restarts(request, e1) && !Restarts(request, e2) && !Restarts(request, e3)
    requires !Reuses(request, s0, e1) && Reuses(request, s1, e2) && !Reuses(request, s2, e3)
    ensures Fold(request, s0, [e1, e2, e3]) == Going(s3)
    ensures Reused(request, s0, 0, [e1, e2, e3]) == 1
  {
    assert [e1] + [e2, e3] == [e1, e2, e3] && [e2] + [e3] == [e2, e3] && [e3] + [] == [e3];
    FoldOneMore(request, s0, 0, e1, [e2, e3]);
    FoldOneMore(request, s1, 0, e2, [e3]);
    FoldOneMore(request, s2, 1, e3, []);
  }

  lemma {:induction false} FoldOneMore(request: Request, state: Projecting, sofar: nat, stored: Stored, events: seq<Stored>)
    requires Step(request, state, stored).Going? && !Restarts(request, stored)
    ensures var next := Step(request, state, stored).state;
      var now := if Reuses(request, state, stored) then sofar + 1 else sofar;
      && Fold(request, state, [stored] + events) == Fold(request, next, events)
      && Reused(request, state, sofar, [stored] + events) == Reused(request, next, now, events)
  {
    assert ([stored] + events)[1..] == events;
  }

  /** Without reuse, a tool block is closed exactly when nothing in flight points at it. */
  lemma {:induction false} ClosedExactlyWhenNothingWaits(request: Request, journal: seq<Stored>, at: nat)
    requires Fold(request, START, journal).Going?
    requires Reused(request, START, 0, journal) == 0
    requires at < |Fold(request, START, journal).state.blocks|
    requires Fold(request, START, journal).state.blocks[at].callId.Some?
    ensures var end := Fold(request, START, journal).state;
      && Open(end.blocks[at]) == |Waiting(end.pending, at)|
      && (end.blocks[at].closed <==> Waiting(end.pending, at) == {})
  {
    BalancedExactlyWithoutReuse(request, journal);
    FoldKeepsBlocks(request, START, journal);
    SlackOfOne(Fold(request, START, journal).state, at);
  }

  /** A projection stops exactly at a result nobody in flight asked for. */
  lemma {:induction false} OrphanExactlyWhenNotInFlight(request: Request, journal: seq<Stored>, stored: Stored)
    requires Fold(request, START, journal).Going?
    ensures var state := Fold(request, START, journal).state;
      Step(request, state, stored).Orphan?
      <==> && stored.event.fact.ToolResultProduced?
           && !BelongsToAnother(request, state.delegated, stored)
           && stored.event.fact.callId !in state.pending
  {
    FoldKeepsBlocks(request, START, journal);
  }
}
