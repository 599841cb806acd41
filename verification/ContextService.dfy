/**
 * Preparing what a model is about to read, and resuming from what an earlier call left
 * (packages/core/src/runtime/context/context.service.ts).
 */
module ContextServices {
  import opened Options
  import opened Journal
  import opened ContextBlocks
  import opened ContextProjector
  import opened ToolBlocks
  import opened ProjectionSplit
  import opened ContextBudgets
  import Compaction = OldestFirstCompaction
  import opened ContextCheckpoints
  import opened InMemoryStorage

  const STRATEGY := "oldest-first"
  const STRATEGY_VERSION := 1

  datatype PrepareContext = PrepareContext(
    sessionId: string,
    window: Window,
    prefix: Compaction.Prefix,
    policy: Option<Policy>,
    lastPrompt: Option<Measurement>,
    request: Request)

  datatype Prepared =
    | Ready(blocks: seq<Block>, budget: Budget, compacted: bool)
    | BudgetExceeded(projected: int)
    | OrphanResult(callId: CallId, toolName: string)
    | NoSession

  // ---------------------------------------------------------------- what preparing comes to

  function Usable(checkpoint: Option<Checkpoint>, digest: PrefixDigest): Option<Checkpoint> {
    if checkpoint.Some? && checkpoint.value.IsUsableAt(STRATEGY, STRATEGY_VERSION, digest) then checkpoint else None
  }

  /** The blocks of a session: those of a checkpoint and what the journal added since, or the whole journal. */
  function Built(checkpoint: Option<Checkpoint>, journal: seq<Stored>, request: Request): Projection {
    match checkpoint
    case None => Projected(request, After(journal, 0))
    case Some(covering) => Prepend(covering.blocks, Projected(request, After(journal, covering.coveredRevision)))
  }

  function BudgetOf(command: PrepareContext, blocks: seq<Block>): Budget {
    Budget(command.window, command.lastPrompt, Compaction.Measure(command.prefix, blocks))
  }

  function Verified(budget: Budget, blocks: seq<Block>, compacted: bool): Prepared {
    if budget.Fits() then Ready(blocks, budget, compacted)
    else BudgetExceeded(if budget.ProjectedTokens().Some? then budget.ProjectedTokens().value else 0)
  }

  ghost predicate Acceptable(command: PrepareContext) {
    command.policy.Some? ==> command.policy.value.Accepted()
  }

  function Decided(command: PrepareContext, blocks: seq<Block>): Decision
    requires Acceptable(command)
  {
    match command.policy
    case None => SKIP
    case Some(policy) => policy.Decide(BudgetOf(command, blocks))
  }

  function Compacted(command: PrepareContext, summarizer: Option<Compaction.Summarizer>, blocks: seq<Block>): Compaction.Compaction
    requires Acceptable(command)
  {
    var decision := Decided(command, blocks);
    var target := decision.CalculateTarget(Compaction.Measure(command.prefix, blocks));
    Compaction.Compacted(command.prefix, blocks, summarizer, decision.keepRecentBlocks, target)
  }

  function CompactedBlocks(command: PrepareContext, summarizer: Option<Compaction.Summarizer>, blocks: seq<Block>): seq<Block>
    requires Acceptable(command)
  {
    Compaction.Result(blocks, Decided(command, blocks).keepRecentBlocks, Compacted(command, summarizer, blocks))
  }

  function CheckpointOf(command: PrepareContext, blocks: seq<Block>): Checkpoint {
    Checkpoint(command.sessionId, Covered(blocks), STRATEGY, STRATEGY_VERSION, command.prefix, blocks)
  }

  /** What the caller gets, and the checkpoint left behind, once the blocks are there. */
  function PreparedFrom(command: PrepareContext, summarizer: Option<Compaction.Summarizer>, blocks: seq<Block>)
    : (Prepared, Option<Checkpoint>)
    requires Acceptable(command)
  {
    if !Decided(command, blocks).shouldCompact then (Verified(BudgetOf(command, blocks), blocks, false), None)
    else
      var compacted := CompactedBlocks(command, summarizer, blocks);
      (Verified(BudgetOf(command, compacted), compacted, true), Some(CheckpointOf(command, compacted)))
  }

  class ContextService {
    const storage: InMemorySessionStorage
    const summarizer: Option<Compaction.Summarizer>

    constructor (storage: InMemorySessionStorage, summarizer: Option<Compaction.Summarizer>)
      ensures this.storage == storage && this.summarizer == summarizer
    {
      this.storage := storage;
      this.summarizer := summarizer;
    }

    method BuildBlocks(sessionId: string, digest: PrefixDigest, request: Request) returns (built: Option<Projection>)
      ensures built
           == if sessionId in storage.records
              then Some(Built(Usable(Furthest(storage.records[sessionId].checkpoints), digest),
                              storage.records[sessionId].events, request))
              else None
    {
      var checkpoint := storage.FindCheckpoint(sessionId);
      if checkpoint.Some? && !checkpoint.value.IsUsableAt(STRATEGY, STRATEGY_VERSION, digest) {
        checkpoint := None;
      }
      var from := if checkpoint.Some? then checkpoint.value.coveredRevision else 0;
      var events := storage.ReadEvents(sessionId, from);
      if events.None? {
        return None;
      }
      var tail := Project(request, events.value);
      built := Some(if checkpoint.None? then tail else Prepend(checkpoint.value.blocks, tail));
    }

    method Prepare(command: PrepareContext) returns (prepared: Prepared)
      requires Acceptable(command)
      modifies storage
      ensures storage.Contents() == old(storage.Contents())
      ensures command.sessionId !in old(storage.records) ==>
        prepared == NoSession && storage.records == old(storage.records)
      ensures command.sessionId in old(storage.records) ==>
        var record := old(storage.records)[command.sessionId];
        match Built(Usable(Furthest(record.checkpoints), command.prefix), record.events, command.request)
        case OrphanToolResult(callId, toolName) =>
          prepared == OrphanResult(callId, toolName) && storage.records == old(storage.records)
        case Blocks(blocks) =>
          var (expected, left) := PreparedFrom(command, summarizer, blocks);
          && prepared == expected
          && storage.records == match left
             case None => old(storage.records)
             case Some(checkpoint) =>
               old(storage.records)[command.sessionId := record.(checkpoints := Put(record.checkpoints, checkpoint))]
    {
      var built := BuildBlocks(command.sessionId, command.prefix, command.request);
      if built.None? {
        return NoSession;
      }
      if built.value.OrphanToolResult? {
        return OrphanResult(built.value.callId, built.value.toolName);
      }
      var blocks := built.value.blocks;
      var budget := BudgetOf(command, blocks);
      var decision := if command.policy.None? then SKIP else command.policy.value.Decide(budget);
      if !decision.shouldCompact {
        return Verified(budget, blocks, false);
      }
      var target := decision.CalculateTarget(Compaction.Measure(command.prefix, blocks));
      var compacted := Compaction.Compact(command.prefix, blocks, summarizer, decision.keepRecentBlocks, target);
      var _ := storage.SaveCheckpoint(CheckpointOf(command, compacted));
      return Verified(BudgetOf(command, compacted), compacted, true);
    }
  }

  // ---------------------------------------------------------------- which checkpoint is resumed from

  /**
   * A session is resumed from the furthest of its checkpoints exactly when that one was left by this
   * strategy, in this version, for the very prefix at hand; otherwise from none.
   */
  lemma {:induction false} ResumesFromItsOwn(checkpoints: seq<Checkpoint>, digest: PrefixDigest)
    ensures match Usable(Furthest(checkpoints), digest)
      case Some(found) =>
        && found in checkpoints
        && (forall other :: other in checkpoints ==> other.coveredRevision <= found.coveredRevision)
        && found.prefixDigest == digest && found.strategy == "oldest-first" && found.strategyVersion == 1
      case None =>
        checkpoints == [] ||
          exists furthest :: furthest in checkpoints
            && (forall other :: other in checkpoints ==> other.coveredRevision <= furthest.coveredRevision)
            && (furthest.prefixDigest != digest || furthest.strategy != "oldest-first" || furthest.strategyVersion != 1)
  {
    if checkpoints != [] {
      var at := FurthestCoversMost(checkpoints);
      assert checkpoints[at] in checkpoints;
    }
  }

  /**
   * What preparing answers and leaves, field by field. A refusal tells what was projected; a checkpoint is
   * left exactly when the context was compacted, and is one the next call for the same prefix may resume from.
   */
  lemma {:induction false} PreparedTells(
    command: PrepareContext, summarizer: Option<Compaction.Summarizer>, blocks: seq<Block>)
    requires Acceptable(command)
    ensures var (prepared, left) := PreparedFrom(command, summarizer, blocks);
      var compacts := Decided(command, blocks).shouldCompact;
      var shown := if compacts then CompactedBlocks(command, summarizer, blocks) else blocks;
      var budget := Budget(command.window, command.lastPrompt, Compaction.Measure(command.prefix, shown));
      && (match prepared
          case Ready(ready, with, compacted) =>
            ready == shown && with == budget && compacted == compacts && budget.Fits()
          case BudgetExceeded(projected) =>
            !budget.Fits() && budget.ProjectedTokens() == Some(projected)
          case _ => false)
      && (left.Some? <==> compacts)
      && (left.Some? ==>
            && left.value.sessionId == command.sessionId && left.value.blocks == shown
            && Usable(left, command.prefix) == left
            && (forall i :: 0 <= i < |shown| ==> shown[i].lastRevision <= left.value.coveredRevision)
            && (left.value.coveredRevision == 0
                || exists i :: 0 <= i < |shown| && shown[i].lastRevision == left.value.coveredRevision))
  {
    if Decided(command, blocks).shouldCompact {
      CoversTheFurthest(CompactedBlocks(command, summarizer, blocks));
    }
  }

  // ---------------------------------------------------------------- what a prepared context is sure of

  /**
   * A budget a policy leaves alone fits its window, unless all of the window is held back for the
   * answer and anything at all is projected.
   */
  lemma {:induction false} LeftAloneFitsExactly(policy: Policy, budget: Budget)
    requires policy.Accepted() && budget.Valid() && !policy.Decide(budget).shouldCompact
    ensures var nothing := budget.lastPrompt.None? || budget.ProjectedTokens() == Some(0);
      budget.Fits() <==> !budget.window.IsFull() || nothing
  {
    CompactsExactlyPastItsShare(policy, budget);
    if budget.lastPrompt.Some? {
      ProjectsNoLess(budget);
    }
    if budget.window.Declared? && budget.lastPrompt.Some? && !budget.window.IsFull() {
      var capacity := (budget.window.totalTokens - budget.window.reservedOutputTokens) as real;
      NoMoreThanAll(policy.maxShare, capacity);
    }
  }

  lemma {:induction false} NoMoreThanAll(share: real, capacity: real)
    requires share <= 1.0 && capacity >= 0.0
    ensures share * capacity <= capacity
  {
    assert share * capacity <= 1.0 * capacity;
  }

  lemma {:induction false} ProjectsNoLess(budget: Budget)
    requires budget.lastPrompt.Some?
    ensures budget.ProjectedTokens().value >= 0
  {
    var tokens, growth := budget.lastPrompt.value.inputTokens as real, budget.Growth();
    assert growth >= 0.0 by {
      if budget.lastPrompt.value.characters > 0 {
        var measured := budget.lastPrompt.value.characters as real;
        assert growth * measured == budget.characters as real;
      }
    }
    assert tokens * growth >= 0.0;
  }

  /** A constructor's own arguments do it: ninety tokens of fifty held back, and one token in the prompt. */
  lemma {:induction false} FullWindowIsLeftAlone() returns (budget: Budget)
    ensures budget.window == Declare(50, 90) && budget.Valid() && budget.window.IsFull()
    ensures DEFAULT_POLICY.Accepted() && !DEFAULT_POLICY.Decide(budget).shouldCompact
    ensures budget.ProjectedTokens() == Some(1) && !budget.Fits()
  {
    budget := Budget(Declare(50, 90), Some(Measurement(1, 0)), 7);
  }

  /**
   * When a context under a policy is refused: left alone, exactly in a window that is full before it
   * starts; compacted over a size nobody measured, exactly when the last prompt was too much already;
   * compacted over a measured one, only when compaction has nothing left it may drop.
   */
  lemma {:induction false} RefusedOnlyWithNothingLeftToDrop(
    command: PrepareContext, summarizer: Option<Compaction.Summarizer>, blocks: seq<Block>)
    requires command.policy.Some? && command.policy.value.Accepted()
    requires BudgetOf(command, blocks).Valid()
    ensures var refused := PreparedFrom(command, summarizer, blocks).0.BudgetExceeded?;
      var budget, decision := BudgetOf(command, blocks), Decided(command, blocks);
      if !decision.shouldCompact then
        var something := command.lastPrompt.Some? && budget.ProjectedTokens() != Some(0);
        (refused <==> command.window.IsFull() && something)
      else
        && command.lastPrompt.Some?
        && if command.lastPrompt.value.characters == 0 then
             (refused <==> !command.window.Fits(command.lastPrompt.value.inputTokens))
           else
             refused ==>
               Compaction.Removables(Compaction.Old(blocks, decision.keepRecentBlocks))
               == Compacted(command, summarizer, blocks).count
  {
    var budget := BudgetOf(command, blocks);
    var policy := command.policy.value;
    var decision := policy.Decide(budget);
    if !decision.shouldCompact {
      LeftAloneFitsExactly(policy, budget);
    } else {
      CompactsExactlyPastItsShare(policy, budget);
      var compacted := CompactedBlocks(command, summarizer, blocks);
      if command.lastPrompt.value.characters == 0 {
        UnmeasuredSizeIgnoresCompaction(budget, Compaction.Measure(command.prefix, compacted));
      } else {
        var target := decision.CalculateTarget(budget.characters);
        Compaction.CompactionMeetsItsTarget(command.prefix, blocks, summarizer, decision.keepRecentBlocks, target);
        if Compaction.Fits(command.prefix, compacted, target) {
          CompactedFits(policy, budget, Compaction.Measure(command.prefix, compacted));
        }
      }
    }
  }
}
