/**
 * Resuming from a checkpoint instead of projecting everything
 * (packages/core/src/runtime/context/context.service.ts:66-114): when the blocks it left stand for
 * what it claims to cover, and when they do not.
 */
module Resumptions {
  import opened Options
  import opened Journal
  import opened ContextBlocks
  import opened ContextProjector
  import opened ToolBlocks
  import opened ProjectionSplit
  import opened Placements
  import opened ContextBudgets
  import Compaction = OldestFirstCompaction
  import opened ContextCheckpoints
  import opened ContextServices

  lemma {:induction false} AfterKeepsSuffix(first: seq<Stored>, second: seq<Stored>, revision: nat)
    requires forall i :: 0 <= i < |second| ==> second[i].revision > revision
    ensures After(first + second, revision) == After(first, revision) + second
    decreases |first|
  {
    if first == [] {
      assert first + second == second;
      AfterAll(second, revision);
    } else {
      assert (first + second)[1..] == first[1..] + second;
      AfterKeepsSuffix(first[1..], second, revision);
    }
  }

  lemma {:induction false} AllAfter(journal: seq<Stored>, revision: nat)
    ensures forall i :: 0 <= i < |After(journal, revision)| ==> After(journal, revision)[i].revision > revision
    decreases |journal|
  {
    if journal != [] {
      AllAfter(journal[1..], revision);
    }
  }

  ghost predicate Beyond(blocks: seq<Block>, revision: nat) {
    forall i :: 0 <= i < |blocks| ==> blocks[i].lastRevision > revision
  }

  lemma {:induction false} StepStaysBeyond(request: Request, state: Projecting, stored: Stored, revision: nat)
    requires Beyond(state.blocks, revision) && stored.revision > revision
    requires Step(request, state, stored).Going?
    ensures Beyond(Step(request, state, stored).state.blocks, revision)
  {
  }

  /** Blocks projected from events past a revision all reach past it. */
  lemma {:induction false} FoldStaysBeyond(request: Request, state: Projecting, events: seq<Stored>, revision: nat)
    requires Beyond(state.blocks, revision)
    requires forall i :: 0 <= i < |events| ==> events[i].revision > revision
    requires Fold(request, state, events).Going?
    ensures Beyond(Fold(request, state, events).state.blocks, revision)
    decreases |events|
  {
    if events != [] {
      StepStaysBeyond(request, state, events[0], revision);
      FoldStaysBeyond(request, Step(request, state, events[0]).state, events[1..], revision);
    }
  }

  /** Resuming answers what projecting everything answers exactly when the checkpoint holds the blocks of the cut, or both fail. */
  lemma {:induction false} ResumesAtCleanCut(request: Request, journal: seq<Stored>, checkpoint: Checkpoint)
    requires Ordered(journal)
    requires Fold(request, START, UpTo(journal, checkpoint.coveredRevision)).Going?
    requires var cut := Fold(request, START, UpTo(journal, checkpoint.coveredRevision)).state;
      cut.pending == map[] && Separated(request, cut, After(journal, checkpoint.coveredRevision))
    ensures var cut := Fold(request, START, UpTo(journal, checkpoint.coveredRevision)).state;
      var failing := Projected(request, After(journal, checkpoint.coveredRevision)).OrphanToolResult?;
      Built(Some(checkpoint), journal, request) == Projected(request, journal)
      <==> checkpoint.blocks == cut.blocks || failing
  {
    var revision := checkpoint.coveredRevision;
    var cut := Fold(request, START, UpTo(journal, revision)).state;
    CutAt(journal, revision);
    SplitsAtCleanCut(request, UpTo(journal, revision), After(journal, revision));
    match Projected(request, After(journal, revision))
    case Blocks(rest) => SameBehind(checkpoint.blocks, cut.blocks, rest);
    case OrphanToolResult(_, _) =>
  }

  lemma {:induction false} SameBehind(first: seq<Block>, second: seq<Block>, rest: seq<Block>)
    ensures first + rest == second + rest <==> first == second
  {
    if first + rest == second + rest {
      assert |first| == |second|;
      assert first == (first + rest)[..|first|] == (second + rest)[..|second|] == second;
    }
  }

  /** The part of a journal past the furthest block of its projection added no block. */
  lemma {:induction false} NothingPastTheFurthestBlock(request: Request, journal: seq<Stored>, revision: nat)
    requires Ordered(journal) && Fold(request, START, journal).Going?
    requires revision == Covered(Fold(request, START, journal).state.blocks)
    requires Fold(request, START, UpTo(journal, revision)).Going?
    requires var cut := Fold(request, START, UpTo(journal, revision)).state;
      cut.pending == map[] && Separated(request, cut, After(journal, revision))
    ensures Fold(request, START, UpTo(journal, revision)).state.blocks == Fold(request, START, journal).state.blocks
  {
    CutAt(journal, revision);
    var cut := Fold(request, START, UpTo(journal, revision)).state;
    var blocks := Fold(request, START, journal).state.blocks;
    SplitsAtCleanCut(request, UpTo(journal, revision), After(journal, revision));
    var rest := Fold(request, START, After(journal, revision)).state.blocks;
    assert blocks == cut.blocks + rest;
    AllAfter(journal, revision);
    FoldStaysBeyond(request, START, After(journal, revision), revision);
    if rest != [] {
      assert blocks[|cut.blocks|] == rest[0];
      CoversTheFurthest(blocks);
    }
  }

  // ---------------------------------------------------------------- exactly when resuming is right

  lemma {:induction false} AfterDelegatesNoMore(journal: seq<Stored>, revision: nat)
    ensures Children(After(journal, revision)) <= Children(journal)
    decreases |journal|
  {
    if journal != [] {
      AfterDelegatesNoMore(journal[1..], revision);
      var rest := After(journal[1..], revision);
      assert ([journal[0]] + rest)[1..] == rest;
    }
  }

  /** What only the covered part of a journal knows, once all of it is projected. */
  ghost function Behind(request: Request, journal: seq<Stored>, revision: nat): Projecting
    requires Fold(request, START, journal).Going?
  {
    var end := Fold(request, START, journal).state;
    end.(delegated := end.delegated - Children(After(journal, revision)))
  }

  /** Events with which a session goes on, reaching for nothing but calls in flight of what a checkpoint covers. */
  ghost predicate Follows(request: Request, journal: seq<Stored>, checkpoint: Checkpoint, later: seq<Stored>)
    requires Fold(request, START, journal).Going?
  {
    && Ordered(journal + later)
    && Separated(request, Behind(request, journal, checkpoint.coveredRevision), later)
    && (forall i :: 0 <= i < |later| ==> later[i].revision > checkpoint.coveredRevision)
  }

  /** Resuming answers what projecting everything does, with the checkpoint's blocks in the place of the journal's. */
  ghost predicate StandsFor(request: Request, journal: seq<Stored>, checkpoint: Checkpoint, later: seq<Stored>)
    requires Fold(request, START, journal).Going?
  {
    exists rest ::
      && Projected(request, journal + later) == Prepend(Fold(request, START, journal).state.blocks, rest)
      && Built(Some(checkpoint), journal + later, request) == Prepend(checkpoint.blocks, rest)
  }

  /**
   * A checkpoint stands for a journal, however the session goes on, exactly when nothing is in flight
   * at the end of it and the part past the covered revision shows no block of its own.
   */
  lemma {:induction false} ResumesExactly(request: Request, journal: seq<Stored>, checkpoint: Checkpoint)
    requires Ordered(journal) && Fold(request, START, journal).Going?
    ensures var settled := Fold(request, START, journal).state.pending == map[];
      var covered := Projected(request, After(journal, checkpoint.coveredRevision)) == Blocks([]);
      (forall later :: Follows(request, journal, checkpoint, later) ==> StandsFor(request, journal, checkpoint, later))
      <==> settled && covered
  {
    var settled := Fold(request, START, journal).state.pending == map[];
    var covered := Projected(request, After(journal, checkpoint.coveredRevision)) == Blocks([]);
    if !covered {
      ShownTwice(request, journal, checkpoint);
    } else if !settled {
      var later := InFlightIsLost(request, journal, checkpoint);
    } else {
      forall later | Follows(request, journal, checkpoint, later)
        ensures StandsFor(request, journal, checkpoint, later)
      {
        StandsForWhatItCovers(request, journal, checkpoint, later);
      }
    }
  }

  /** With nothing in flight and nothing shown past it, the checkpoint stands for the journal. */
  lemma {:induction false} StandsForWhatItCovers(
    request: Request, journal: seq<Stored>, checkpoint: Checkpoint, later: seq<Stored>)
    requires Fold(request, START, journal).Going? && Fold(request, START, journal).state.pending == map[]
    requires Projected(request, After(journal, checkpoint.coveredRevision)) == Blocks([])
    requires Follows(request, journal, checkpoint, later)
    ensures StandsFor(request, journal, checkpoint, later)
  {
    var past := After(journal, checkpoint.coveredRevision);
    var end, tail := Fold(request, START, journal).state, Fold(request, START, past).state;
    var behind := Behind(request, journal, checkpoint.coveredRevision);
    FoldKeepsBlocks(request, START, journal);
    FoldKeepsBlocks(request, START, past);
    FoldDelegates(request, START, journal);
    FoldDelegates(request, START, past);
    AfterDelegatesNoMore(journal, checkpoint.coveredRevision);
    NothingWaits(end);
    NothingWaits(tail);
    assert Shifted(behind, tail, end);
    FoldShifts(request, behind, tail, end, later);
    FoldAppend(request, START, journal, later);
    FoldAppend(request, START, past, later);
    AfterKeepsSuffix(journal, later, checkpoint.coveredRevision);
    var rest := Answer(Fold(request, tail, later));
    assert Projected(request, journal + later) == Prepend(end.blocks, rest);
  }

  lemma {:induction false} NothingWaits(state: Projecting)
    requires Valid(state) && (state.pending == map[] || state.blocks == [])
    ensures state.pending == map[] && state.breath.None?
    ensures state.blocks == [] ==> state.positions == map[]
  {
    assert forall at: nat :: state.pending == map[] ==> Waiting(state.pending, at) == {};
  }

  /** What is shown past the covered revision is shown beside the checkpoint's blocks. */
  lemma {:induction false} ShownTwice(request: Request, journal: seq<Stored>, checkpoint: Checkpoint)
    requires Ordered(journal) && Fold(request, START, journal).Going?
    requires Projected(request, After(journal, checkpoint.coveredRevision)) != Blocks([])
    ensures Follows(request, journal, checkpoint, []) && !StandsFor(request, journal, checkpoint, [])
  {
    assert journal + [] == journal;
    assert Separated(request, Behind(request, journal, checkpoint.coveredRevision), []);
    var full := Fold(request, START, journal).state.blocks;
    var shown := Projected(request, After(journal, checkpoint.coveredRevision));
    forall rest
      ensures Blocks(full) == Prepend(full, rest) ==> Prepend(checkpoint.blocks, shown) != Prepend(checkpoint.blocks, rest)
    {
      AsManyAddsNothing(full, rest, full);
      SameInFront(checkpoint.blocks, shown, rest);
    }
  }

  /** What is put behind some blocks and makes them no more is nothing. */
  lemma {:induction false} AsManyAddsNothing(blocks: seq<Block>, rest: Projection, whole: seq<Block>)
    requires |whole| == |blocks|
    ensures Prepend(blocks, rest) == Blocks(whole) ==> whole == blocks && rest == Blocks([])
  {
    if Prepend(blocks, rest) == Blocks(whole) {
      assert |whole| == |blocks| + |rest.blocks|;
      assert rest.blocks == [] && blocks + [] == blocks;
    }
  }

  lemma {:induction false} SameInFront(blocks: seq<Block>, first: Projection, second: Projection)
    ensures Prepend(blocks, first) == Prepend(blocks, second) ==> first == second
  {
    if first.Blocks? && second.Blocks? && Prepend(blocks, first) == Prepend(blocks, second) {
      var whole := blocks + first.blocks;
      assert first.blocks == whole[|blocks|..] == (blocks + second.blocks)[|blocks|..] == second.blocks;
    }
  }

  /** The answer to a call in flight joins its block in the whole journal, and nothing in what is resumed. */
  lemma {:induction false} InFlightIsLost(request: Request, journal: seq<Stored>, checkpoint: Checkpoint) returns (later: seq<Stored>)
    requires Ordered(journal) && Fold(request, START, journal).Going?
    requires Fold(request, START, journal).state.pending != map[]
    ensures Follows(request, journal, checkpoint, later) && !StandsFor(request, journal, checkpoint, later)
  {
    later := AnswerInFlight(request, journal, checkpoint.coveredRevision);
    var full := Fold(request, START, journal).state.blocks;
    forall i | 0 <= i < |later|
      ensures Apart(request, Behind(request, journal, checkpoint.coveredRevision), later[i])
    {
      assert Apart(request, Fold(request, START, journal).state, later[i]);
    }
    forall rest
      ensures Projected(request, journal + later) != Prepend(full, rest)
    {
      AsManyAddsNothing(full, rest, Fold(request, START, journal + later).state.blocks);
    }
  }

  /**
   * So a compaction is kept when no dropped block reached further than what it kept, and no call was
   * in flight there.
   */
  lemma {:induction false} ResumingKeepsTheCompaction(
    request: Request, journal: seq<Stored>, later: seq<Stored>, checkpoint: Checkpoint)
    requires Ordered(journal + later) && Fold(request, START, journal).Going?
    requires checkpoint.coveredRevision == Covered(Fold(request, START, journal).state.blocks)
    requires forall i :: 0 <= i < |later| ==> later[i].revision > checkpoint.coveredRevision
    requires Fold(request, START, UpTo(journal, checkpoint.coveredRevision)).Going?
    requires var cut := Fold(request, START, UpTo(journal, checkpoint.coveredRevision)).state;
      cut.pending == map[] && Separated(request, cut, After(journal, checkpoint.coveredRevision) + later)
    ensures StandsFor(request, journal, checkpoint, later)
  {
    var revision := checkpoint.coveredRevision;
    var past := After(journal, revision);
    var cut := Fold(request, START, UpTo(journal, revision)).state;
    assert Ordered(journal) by {
      assert forall i :: 0 <= i < |journal| ==> (journal + later)[i] == journal[i];
    }
    assert Separated(request, cut, past) && Separated(request, cut, later) by {
      assert forall i :: 0 <= i < |past| ==> (past + later)[i] == past[i];
      assert forall i :: 0 <= i < |later| ==> (past + later)[|past| + i] == later[i];
    }
    NothingPastTheFurthestBlock(request, journal, revision);
    CoveredIsSettled(request, journal, revision);
    FollowsFromCut(request, journal, later, checkpoint);
    ResumesExactly(request, journal, checkpoint);
  }

  /** Behind a clean cut that shows every block, nothing is in flight and nothing is known but runs. */
  lemma {:induction false} CoveredIsSettled(request: Request, journal: seq<Stored>, revision: nat)
    requires Ordered(journal) && Fold(request, START, journal).Going?
    requires Fold(request, START, UpTo(journal, revision)).Going?
    requires var cut := Fold(request, START, UpTo(journal, revision)).state;
      && cut.pending == map[] && Separated(request, cut, After(journal, revision))
      && cut.blocks == Fold(request, START, journal).state.blocks
    ensures var cut := Fold(request, START, UpTo(journal, revision)).state;
      var end := Fold(request, START, journal).state;
      && Projected(request, After(journal, revision)) == Blocks([])
      && end.pending == map[] && end.positions.Keys == cut.positions.Keys
      && end.delegated == cut.delegated + Children(After(journal, revision))
  {
    var first, past := UpTo(journal, revision), After(journal, revision);
    var cut := Fold(request, START, first).state;
    CutAt(journal, revision);
    FoldKeepsBlocks(request, START, first);
    NothingWaits(cut);
    FoldAppend(request, START, first, past);
    FoldShifts(request, cut, START, cut, past);
    var tail := Fold(request, START, past).state;
    assert |cut.blocks| == |cut.blocks| + |tail.blocks|;
    FoldKeepsBlocks(request, START, past);
    NothingWaits(tail);
    FoldDelegates(request, START, past);
  }

  lemma {:induction false} FollowsFromCut(request: Request, journal: seq<Stored>, later: seq<Stored>, checkpoint: Checkpoint)
    requires Ordered(journal + later) && Fold(request, START, journal).Going?
    requires forall i :: 0 <= i < |later| ==> later[i].revision > checkpoint.coveredRevision
    requires Fold(request, START, UpTo(journal, checkpoint.coveredRevision)).Going?
    requires var cut := Fold(request, START, UpTo(journal, checkpoint.coveredRevision)).state;
      var end := Fold(request, START, journal).state;
      && Separated(request, cut, later)
      && end.positions.Keys == cut.positions.Keys
      && end.delegated == cut.delegated + Children(After(journal, checkpoint.coveredRevision))
    ensures Follows(request, journal, checkpoint, later)
  {
    var cut := Fold(request, START, UpTo(journal, checkpoint.coveredRevision)).state;
    forall i | 0 <= i < |later|
      ensures Apart(request, Behind(request, journal, checkpoint.coveredRevision), later[i])
    {
      assert Apart(request, cut, later[i]);
    }
  }

  // ---------------------------------------------------------------- where resuming goes wrong

  /**
   * A compaction that keeps nothing covers nothing: the next call projects the whole journal again,
   * so it stands for the journal only when there was no block to drop.
   */
  lemma {:induction false} KeepingNothingForgetsTheCompaction(request: Request, journal: seq<Stored>, checkpoint: Checkpoint)
    requires checkpoint.blocks == [] && checkpoint.coveredRevision == Covered(checkpoint.blocks)
    ensures Built(Some(checkpoint), journal, request) == Built(None, journal, request)
    ensures Ordered(journal) && Fold(request, START, journal).Going? && After(journal, 0) == journal ==>
      var emptied := Fold(request, START, journal).state.blocks == [];
      ((forall later :: Follows(request, journal, checkpoint, later) ==> StandsFor(request, journal, checkpoint, later))
       <==> emptied)
  {
    match Projected(request, After(journal, 0)) {
      case Blocks(blocks) => assert [] + blocks == blocks;
      case OrphanToolResult(_, _) =>
    }
    if Ordered(journal) && Fold(request, START, journal).Going? && After(journal, 0) == journal {
      ResumesExactly(request, journal, checkpoint);
      FoldKeepsBlocks(request, START, journal);
    }
  }

  const LATE_CALL := Stored(1, Event("e-1", "r", ToolCallRequested("c", "t", "{}", None)))
  const LATE_WORDS := Stored(2, Event("e-2", "r", UserMessageReceived("hi", [])))
  const LATE_RESULT := Stored(3, Event("e-3", "r", ToolResultProduced("c", "t", "{}", false, [])))

  const LATE_PREFIX := Compaction.Prefix([], None, None)
  const LATE_KEPT := ConversationBlock(UserMessage("hi", []), 2)

  /** A context of some size in a window of a hundred tokens, all of them used. */
  function LateCommand(request: Request, measured: nat): PrepareContext {
    PrepareContext("s", Declare(100, 0), LATE_PREFIX, Some(Policy(0.9, 0.8, 1)), Some(Measurement(100, measured)), request)
  }

  /**
   * A call answered after later words may be dropped before them. The checkpoint left behind then
   * covers less than the dropped block did, the next call takes it, and meets a result whose call is gone.
   */
  lemma {:induction false} DroppedBlockMayReachFurther(request: Request)
    returns (journal: seq<Stored>, blocks: seq<Block>, command: PrepareContext, checkpoint: Checkpoint)
    ensures journal == [LATE_CALL, LATE_WORDS, LATE_RESULT]
    ensures Projected(request, journal) == Blocks(blocks)
    ensures command.request == request && Acceptable(command) && BudgetOf(command, blocks).Valid()
    ensures PreparedFrom(command, None, blocks).1 == Some(checkpoint)
    ensures Usable(Furthest(Put([], checkpoint)), command.prefix) == Some(checkpoint)
    ensures Built(Some(checkpoint), journal, request) == OrphanToolResult("c", "t")
  {
    var exchange;
    journal, exchange := LateAnswer(request);
    blocks := [exchange, LATE_KEPT];
    MeasureOfLate(exchange);
    var measured := Compaction.Measure(LATE_PREFIX, blocks);
    command := LateCommand(request, measured);
    var target := DecidedLate(request, measured, BudgetOf(command, blocks));
    var kept := DropsTheExchange(LATE_PREFIX, exchange, LATE_KEPT, target);
    checkpoint := LeavesBehind(command, blocks, kept, target);
    CoversTheWords(kept);
    FoundAlone(checkpoint);
    var tail := AfterTwo(journal);
    ResumesLate(request, journal, tail, checkpoint);
  }

  lemma {:induction false} LeavesBehind(command: PrepareContext, blocks: seq<Block>, kept: seq<Block>, target: int)
    returns (checkpoint: Checkpoint)
    requires Acceptable(command) && command.prefix == LATE_PREFIX
    requires var decision := Decided(command, blocks);
      && decision.shouldCompact && decision.keepRecentBlocks == 1
      && decision.CalculateTarget(Compaction.Measure(LATE_PREFIX, blocks)) == target
    requires kept == Compaction.Result(blocks, 1, Compaction.Compacted(LATE_PREFIX, blocks, None, 1, target))
    ensures checkpoint == CheckpointOf(command, kept)
    ensures PreparedFrom(command, None, blocks).1 == Some(checkpoint)
  {
    checkpoint := CheckpointOf(command, kept);
  }

  lemma {:induction false} CoversTheWords(kept: seq<Block>)
    requires kept == [LATE_KEPT]
    ensures Covered(kept) == 2
  {
    assert kept[..0] == [];
  }

  lemma {:induction false} FoundAlone(checkpoint: Checkpoint)
    ensures Furthest(Put([], checkpoint)) == Some(checkpoint)
  {
    assert [checkpoint][..0] == [];
  }

  lemma {:induction false} ResumesLate(request: Request, journal: seq<Stored>, tail: seq<Stored>, checkpoint: Checkpoint)
    requires checkpoint.coveredRevision == 2 && tail == After(journal, 2) == [LATE_RESULT]
    ensures Built(Some(checkpoint), journal, request) == OrphanToolResult("c", "t")
  {
    LateResultAlone(request, tail);
  }

  lemma {:induction false} MeasureOfLate(exchange: Block)
    requires |exchange.messages| == 2 && exchange.messages[0].Characters() > 0
    ensures Compaction.Measure(LATE_PREFIX, [exchange, LATE_KEPT]) >= 3
    ensures Compaction.Measure(LATE_PREFIX, [LATE_KEPT]) == 2
  {
    assert [exchange, LATE_KEPT][1..] == [LATE_KEPT] && [LATE_KEPT][1..] == [];
    assert LATE_KEPT.messages[1..] == [];
    assert Compaction.MeasureMessages(LATE_KEPT.messages) == 2;
    assert Compaction.MeasureBlocks([LATE_KEPT]) == 2;
  }

  /** The policy asks for four fifths of it, and to keep the last block. */
  lemma {:induction false} DecidedLate(request: Request, measured: nat, budget: Budget) returns (target: int)
    requires measured >= 3
    requires budget == Budget(LateCommand(request, measured).window, LateCommand(request, measured).lastPrompt, measured)
    ensures Policy(0.9, 0.8, 1).Accepted() && budget.Valid()
    ensures var decision := Policy(0.9, 0.8, 1).Decide(budget);
      && decision.shouldCompact && decision.keepRecentBlocks == 1
      && decision.CalculateTarget(measured) == target
    ensures 2 <= target < measured
  {
    assert measured as real / measured as real == 1.0;
    assert budget.ProjectedTokens() == Some(100);
    assert budget.ProjectedUsedShare() == Some(1.0);
    target := (measured as real * 0.8).Floor;
  }

  lemma {:induction false} LateResultAlone(request: Request, tail: seq<Stored>)
    requires tail == [LATE_RESULT]
    ensures Projected(request, tail) == OrphanToolResult("c", "t")
  {
    assert Step(request, START, tail[0]) == Orphan("c", "t");
  }

  lemma {:induction false} AfterTwo(journal: seq<Stored>) returns (tail: seq<Stored>)
    requires journal == [LATE_CALL, LATE_WORDS, LATE_RESULT]
    ensures tail == After(journal, 2) == [LATE_RESULT]
  {
    tail := After(journal, 2);
    assert journal[1..] == [LATE_WORDS, LATE_RESULT];
    assert [LATE_WORDS, LATE_RESULT][1..] == [LATE_RESULT];
    assert [LATE_RESULT][1..] == [];
    assert After([LATE_RESULT], 2) == [LATE_RESULT];
    assert After([LATE_WORDS, LATE_RESULT], 2) == [LATE_RESULT];
  }

  lemma {:induction false} FoldThree(
    request: Request, s0: Projecting, s1: Projecting, s2: Projecting, s3: Projecting, e1: Stored, e2: Stored, e3: Stored)
    requires Step(request, s0, e1) == Going(s1) && Step(request, s1, e2) == Going(s2) && Step(request, s2, e3) == Going(s3)
    ensures Fold(request, s0, [e1, e2, e3]) == Going(s3)
  {
    assert [e1, e2, e3][1..] == [e2, e3] && [e2, e3][1..] == [e3] && [e3][1..] == [];
    assert Fold(request, s3, []) == Going(s3);
    assert Fold(request, s2, [e3]) == Going(s3);
    assert Fold(request, s1, [e2, e3]) == Going(s3);
  }

  lemma {:induction false} LateAnswer(request: Request) returns (journal: seq<Stored>, exchange: Block)
    ensures journal == [LATE_CALL, LATE_WORDS, LATE_RESULT]
    ensures Projected(request, journal) == Blocks([exchange, LATE_KEPT])
    ensures exchange.IsRemovable() && exchange.lastRevision == 3
    ensures |exchange.messages| == 2 && exchange.messages[0].Characters() > 0
  {
    var call, answer := Call(LATE_CALL.event.fact), Answered(request, LATE_RESULT);
    var open := PendingCall(call, 1);
    var said := LATE_KEPT;
    journal := [LATE_CALL, LATE_WORDS, LATE_RESULT];
    exchange := open.AnsweredBy(answer, 3);
    ExchangeIsClosed(call, answer);
    var one := Projecting([open], map["c" := 0], map["c" := 0], {}, Some(0));
    var two := Projecting([open, said], map["c" := 0], map["c" := 0], {}, None);
    var three := Projecting([exchange, said], map[], map["c" := 0], {}, None);
    assert Step(request, START, LATE_CALL) == Going(one);
    assert Step(request, one, LATE_WORDS) == Going(two);
    assert Step(request, two, LATE_RESULT) == Going(three) by {
      assert two.pending - {"c"} == map[];
      assert two.blocks[0 := exchange] == [exchange, said];
    }
    FoldThree(request, START, one, two, three, LATE_CALL, LATE_WORDS, LATE_RESULT);
  }

  lemma {:induction false} ExchangeIsClosed(call: Message, answer: Message)
    requires call.ToolCallMessage? && answer.ToolResultMessage?
    ensures PendingCall(call, 1).AnsweredBy(answer, 3).closed
  {
    IdsOfOneMore([], call);
    IdsOfOneMore([call], answer);
    assert [] + [call] == [call];
  }

  lemma {:induction false} DropsTheExchange(prefix: Compaction.Prefix, exchange: Block, said: Block, target: int)
    returns (kept: seq<Block>)
    requires exchange.IsRemovable()
    requires Compaction.Measure(prefix, [said]) <= target < Compaction.Measure(prefix, [exchange, said])
    ensures kept == [said]
    ensures kept == Compaction.Result([exchange, said], 1, Compaction.Compacted(prefix, [exchange, said], None, 1, target))
  {
    var blocks := [exchange, said];
    kept := [said];
    assert Compaction.Old(blocks, 1) == [exchange] && Compaction.Recent(blocks, 1) == [said];
    assert [exchange][1..] == [];
    assert Compaction.Removables([exchange]) == 1;
    assert Compaction.Without([exchange], 1) == [] && [] + [said] == [said];
    assert Compaction.Kept(blocks, 1, 0) == blocks && Compaction.Kept(blocks, 1, 1) == [said];
    Compaction.NeededSteps(prefix, blocks, 1, None, target, 0);
    Compaction.NeededSteps(prefix, blocks, 1, None, target, 1);
  }
}
