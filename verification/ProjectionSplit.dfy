/**
 * When a journal may be projected in two parts, which is what resuming from a checkpoint does
 * (packages/core/src/runtime/context/context.service.ts:66-77).
 */
module ProjectionSplit {
  import opened Options
  import opened Journal
  import opened ContextBlocks
  import opened ContextProjector
  import opened ToolBlocks

  /** An event of the second part that reaches for nothing the first part left behind but its calls in flight. */
  ghost predicate Apart(request: Request, head: Projecting, stored: Stored) {
    && !Restarts(request, stored)
    && (stored.event.runId in head.delegated ==> IsCurrent(request, stored))
    && (stored.event.fact.SkillActivated? && IsActive(request, stored) ==> stored.event.fact.callId !in head.positions)
  }

  ghost predicate Separated(request: Request, head: Projecting, tail: seq<Stored>) {
    forall i :: 0 <= i < |tail| ==> Apart(request, head, tail[i])
  }

  /** Blocks in front of what another projection answered; a failure stays that failure. */
  function Prepend(blocks: seq<Block>, projection: Projection): Projection {
    match projection
    case Blocks(rest) => Blocks(blocks + rest)
    case OrphanToolResult(_, _) => projection
  }

  /** `whole` is what `alone` becomes when it starts behind the blocks of `head`. */
  ghost predicate Shifted(head: Projecting, alone: Projecting, whole: Projecting) {
    var n := |head.blocks|;
    && whole.blocks == head.blocks + alone.blocks
    && whole.pending.Keys == alone.pending.Keys
    && (forall id :: id in alone.pending ==> whole.pending[id] == alone.pending[id] + n)
    && (forall id :: id in whole.positions <==> id in alone.positions || id in head.positions)
    && (forall id :: id in alone.positions ==> whole.positions[id] == alone.positions[id] + n)
    && whole.delegated == head.delegated + alone.delegated
    && whole.breath == (if alone.breath.Some? then Some(alone.breath.value + n) else None)
  }

  lemma {:induction false} FoldAppend(request: Request, state: Projecting, first: seq<Stored>, second: seq<Stored>)
    ensures Fold(request, state, first + second)
         == match Fold(request, state, first)
            case Going(middle) => Fold(request, middle, second)
            case Orphan(callId, toolName) => Orphan(callId, toolName)
    decreases |first|
  {
    if first == [] {
      assert first + second == second;
    } else {
      assert (first + second)[1..] == first[1..] + second;
      match Step(request, state, first[0])
      case Going(next) => FoldAppend(request, next, first[1..], second);
      case Orphan(_, _) =>
    }
  }

  lemma {:induction false} StepShifts(request: Request, head: Projecting, alone: Projecting, whole: Projecting, stored: Stored)
    requires Valid(alone) && Shifted(head, alone, whole) && Apart(request, head, stored)
    ensures match Step(request, alone, stored)
      case Going(next) => Step(request, whole, stored).Going? && Shifted(head, next, Step(request, whole, stored).state)
      case Orphan(callId, toolName) => Step(request, whole, stored) == Orphan(callId, toolName)
  {
    var fact := stored.event.fact;
    if fact.DelegationStarted? {
      DelegationShifts(request, head, alone, whole, fact.childRunId);
    } else if BelongsToAnother(request, alone.delegated, stored) {
      assert BelongsToAnother(request, whole.delegated, stored);
    } else if fact.ToolCallRequested? {
      RequestShifts(head, alone, whole, Call(fact), stored.revision);
    } else if !IsConversational(fact) {
    } else if fact.ToolResultProduced? {
      CloseShifts(request, head, alone.(breath := None), whole.(breath := None), stored);
    } else if fact.SkillActivated? {
      PinShifts(request, head, alone.(breath := None), whole.(breath := None), stored);
    } else if fact.UserMessageReceived? {
      TalkShifts(head, alone.(breath := None), whole.(breath := None), Said(request, stored), stored.revision);
    } else if fact.text != "" {
      TalkShifts(head, alone.(breath := None), whole.(breath := None), AssistantMessage(fact.text), stored.revision);
    }
  }

  lemma {:induction false} DelegationShifts(request: Request, head: Projecting, alone: Projecting, whole: Projecting, child: RunId)
    requires Shifted(head, alone, whole) && request.currentRun != Some(child)
    ensures Shifted(head, Delegate(request, alone, child), Delegate(request, whole, child))
  {
  }

  lemma {:induction false} TalkShifts(head: Projecting, alone: Projecting, whole: Projecting, message: Message, revision: nat)
    requires Shifted(head, alone, whole)
    ensures var block := ConversationBlock(message, revision);
      Shifted(head, alone.(blocks := alone.blocks + [block]), whole.(blocks := whole.blocks + [block]))
  {
  }

  lemma {:induction false} RequestShifts(head: Projecting, alone: Projecting, whole: Projecting, call: Message, revision: nat)
    requires Breathing(alone) && Shifted(head, alone, whole) && call.ToolCallMessage?
    ensures Shifted(head, Requested(alone, call, revision), Requested(whole, call, revision))
  {
    if alone.breath.Some? {
      JoinShifts(head, alone, whole, call, revision);
    } else {
      OpenShifts(head, alone, whole, call, revision);
    }
  }

  lemma {:induction false} JoinShifts(head: Projecting, alone: Projecting, whole: Projecting, call: Message, revision: nat)
    requires alone.breath.Some? && alone.breath.value < |alone.blocks|
    requires Shifted(head, alone, whole) && call.ToolCallMessage?
    ensures Shifted(head, Requested(alone, call, revision), Requested(whole, call, revision))
  {
    assert Requested(whole, call, revision).blocks == head.blocks + Requested(alone, call, revision).blocks;
  }

  lemma {:induction false} OpenShifts(head: Projecting, alone: Projecting, whole: Projecting, call: Message, revision: nat)
    requires alone.breath.None? && Shifted(head, alone, whole) && call.ToolCallMessage?
    ensures Shifted(head, Requested(alone, call, revision), Requested(whole, call, revision))
  {
    var next, after := Requested(alone, call, revision), Requested(whole, call, revision);
    var block := [PendingCall(call, revision)];
    assert next.blocks == alone.blocks + block && after.blocks == head.blocks + alone.blocks + block;
    assert head.blocks + alone.blocks + block == head.blocks + (alone.blocks + block);
  }

  lemma {:induction false} CloseShifts(request: Request, head: Projecting, alone: Projecting, whole: Projecting, stored: Stored)
    requires Indexed(alone) && Shifted(head, alone, whole) && stored.event.fact.ToolResultProduced?
    ensures match Close(request, alone, stored)
      case Going(next) => Close(request, whole, stored).Going? && Shifted(head, next, Close(request, whole, stored).state)
      case Orphan(callId, toolName) => Close(request, whole, stored) == Orphan(callId, toolName)
  {
    var id := stored.event.fact.callId;
    if id in alone.pending {
      var next, after := Close(request, alone, stored).state, Close(request, whole, stored).state;
      assert after.blocks == head.blocks + next.blocks;
    }
  }

  lemma {:induction false} PinShifts(request: Request, head: Projecting, alone: Projecting, whole: Projecting, stored: Stored)
    requires Indexed(alone) && Shifted(head, alone, whole)
    requires stored.event.fact.SkillActivated? && Apart(request, head, stored)
    ensures Shifted(head, Pin(request, alone, stored), Pin(request, whole, stored))
  {
    var next, after := Pin(request, alone, stored), Pin(request, whole, stored);
    assert after.blocks == head.blocks + next.blocks;
  }

  lemma {:induction false} FoldShifts(
    request: Request, head: Projecting, alone: Projecting, whole: Projecting, tail: seq<Stored>)
    requires Valid(alone) && Shifted(head, alone, whole) && Separated(request, head, tail)
    ensures Answer(Fold(request, whole, tail)) == Prepend(head.blocks, Answer(Fold(request, alone, tail)))
    ensures Fold(request, alone, tail).Going? ==>
      && Fold(request, whole, tail).Going?
      && Shifted(head, Fold(request, alone, tail).state, Fold(request, whole, tail).state)
    decreases |tail|
  {
    if tail != [] {
      assert Apart(request, head, tail[0]);
      StepShifts(request, head, alone, whole, tail[0]);
      match Step(request, alone, tail[0])
      case Going(next) =>
        StepKeepsBlocks(request, alone, tail[0]);
        FoldShifts(request, head, next, Step(request, whole, tail[0]).state, tail[1..]);
      case Orphan(_, _) =>
    }
  }

  /** With nothing in flight at the cut, the parts project on their own, failures included. */
  lemma {:induction false} SplitsAtCleanCut(request: Request, first: seq<Stored>, second: seq<Stored>)
    requires Fold(request, START, first).Going?
    requires Fold(request, START, first).state.pending == map[]
    requires Separated(request, Fold(request, START, first).state, second)
    ensures Projected(request, first + second)
         == Prepend(Fold(request, START, first).state.blocks, Projected(request, second))
    ensures Fold(request, START, second).Going? ==>
      && Fold(request, START, first + second).Going?
      && Fold(request, START, first + second).state.pending.Keys == Fold(request, START, second).state.pending.Keys
  {
    var head := Fold(request, START, first).state;
    FoldKeepsBlocks(request, START, first);
    assert forall at: nat :: Waiting(head.pending, at) == {};
    FoldAppend(request, START, first, second);
    FoldShifts(request, head, START, head, second);
  }

  lemma {:induction false} LongerThanAll(runs: set<RunId>) returns (alone: RunId)
    ensures forall run :: run in runs ==> |run| < |alone|
    decreases |runs|
  {
    if runs == {} {
      alone := "r";
    } else {
      var run :| run in runs;
      var rest := LongerThanAll(runs - {run});
      alone := rest + run + "r";
      forall other | other in runs ensures |other| < |alone| {
        assert other == run || other in runs - {run};
      }
    }
  }

  lemma {:induction false} PastAll(journal: seq<Stored>, least: nat) returns (revision: nat)
    ensures revision > least && forall i :: 0 <= i < |journal| ==> journal[i].revision < revision
    decreases |journal|
  {
    if journal == [] {
      revision := least + 1;
    } else {
      var last := journal[|journal| - 1].revision;
      var before := PastAll(journal[..|journal| - 1], least);
      revision := if before <= last then last + 1 else before;
    }
  }

  /** The result of a call in flight: part of the whole journal, and an orphan on its own. */
  ghost predicate Answers(request: Request, first: seq<Stored>, second: seq<Stored>, least: nat)
    requires Fold(request, START, first).Going?
  {
    var head := Fold(request, START, first).state;
    && Ordered(first + second) && Separated(request, head, second)
    && (forall i :: 0 <= i < |second| ==> second[i].revision > least)
    && Fold(request, START, first + second).Going?
    && (var blocks := Fold(request, START, first + second).state.blocks;
        |blocks| == |head.blocks| && blocks != head.blocks)
    && Projected(request, second).OrphanToolResult?
  }

  lemma {:induction false} CloseChanges(request: Request, head: Projecting, stored: Stored)
    requires Indexed(head) && stored.event.fact.ToolResultProduced? && stored.event.fact.callId in head.pending
    ensures Close(request, head, stored).Going?
    ensures var after := Close(request, head, stored).state.blocks; |after| == |head.blocks| && after != head.blocks
  {
    var at := head.pending[stored.event.fact.callId];
    assert |Close(request, head, stored).state.blocks[at].messages| == |head.blocks[at].messages| + 1;
  }

  lemma {:induction false} FoldOne(request: Request, state: Projecting, stored: Stored)
    ensures Fold(request, state, [stored]) == Step(request, state, stored)
  {
    assert [stored][1..] == [];
  }

  /** What a result does behind a head with its call in flight, and on its own. */
  lemma {:induction false} ResultEitherWay(request: Request, head: Projecting, result: Stored)
    requires Indexed(head) && result.event.fact.ToolResultProduced? && result.event.fact.callId in head.pending
    requires result.event.runId !in head.delegated
    ensures Fold(request, START, [result]).Orphan? && Fold(request, head, [result]).Going?
    ensures var after := Fold(request, head, [result]).state.blocks; |after| == |head.blocks| && after != head.blocks
  {
    FoldOne(request, START, result);
    FoldOne(request, head, result);
    CloseChanges(request, head.(breath := None), result);
  }

  lemma {:induction false} AnswerInFlight(request: Request, first: seq<Stored>, least: nat) returns (second: seq<Stored>)
    requires Ordered(first) && Fold(request, START, first).Going? && Fold(request, START, first).state.pending != map[]
    ensures Answers(request, first, second, least)
  {
    var head := Fold(request, START, first).state;
    FoldKeepsBlocks(request, START, first);
    var id :| id in head.pending;
    var run := LongerThanAll(head.delegated);
    var revision := PastAll(first, least);
    var result := Stored(revision, Event("result", run, ToolResultProduced(id, "tool", "", false, [])));
    second := [result];
    FoldAppend(request, START, first, second);
    ResultEitherWay(request, head, result);
  }

  /**
   * The cut is safe for every second part that follows in order and keeps apart exactly when no call is
   * in flight: with one in flight, its result alone fails when projected from nothing.
   */
  lemma {:induction false} SplitsExactlyAtCleanCuts(request: Request, first: seq<Stored>)
    requires Ordered(first) && Fold(request, START, first).Going?
    ensures var head := Fold(request, START, first).state;
      head.pending == map[]
      <==> (forall second :: Ordered(first + second) && Separated(request, head, second) ==>
              Projected(request, first + second) == Prepend(head.blocks, Projected(request, second)))
  {
    var head := Fold(request, START, first).state;
    if head.pending == map[] {
      forall second | Ordered(first + second) && Separated(request, head, second)
        ensures Projected(request, first + second) == Prepend(head.blocks, Projected(request, second))
      {
        SplitsAtCleanCut(request, first, second);
      }
    } else {
      var second := AnswerInFlight(request, first, 0);
      assert Ordered(first + second) && Separated(request, head, second);
    }
  }
}
