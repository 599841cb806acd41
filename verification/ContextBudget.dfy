/**
 * How much of a model's window a context is projected to use, when that makes the policy compact,
 * and how much room a compaction that meets its target is sure to leave
 * (packages/core/src/domain/context/context-budget.value-object.ts,
 * window-share-compaction.policy.ts and compaction-decision.value-object.ts).
 * Shares and ratios are exact reals.
 */
module ContextBudgets {
  import opened Options
  import opened Journal

  /** What the provider declared, in tokens: an absent window accepts everything. */
  datatype Window = Declared(totalTokens: nat, reservedOutputTokens: nat) | Unknown
  {
    ghost predicate Valid() {
      Declared? ==> reservedOutputTokens <= totalTokens
    }

    predicate Fits(tokens: int) {
      match this
      case Declared(total, reserved) => tokens <= total - reserved
      case Unknown => true
    }

    /** A declared window all of which is held back for the answer. */
    predicate IsFull() {
      Declared? && totalTokens == reservedOutputTokens
    }
  }

  /** A declaration never reserves more than the window holds. */
  function Declare(totalTokens: int, reservedOutputTokens: int): (window: Window)
    ensures window.Valid() && (window.IsFull() <==> totalTokens <= 0 || reservedOutputTokens >= totalTokens)
  {
    var total := if totalTokens < 0 then 0 else totalTokens;
    var reserved := if reservedOutputTokens < 0 then 0 else reservedOutputTokens;
    Declared(total, if reserved < total then reserved else total)
  }

  /** Rounds to the nearest whole number, halves upwards. */
  function Round(x: real): int {
    (x + 0.5).Floor
  }

  function Scaled(tokens: nat, growth: real): int {
    Round(tokens as real * growth)
  }

  datatype Budget = Budget(window: Window, lastPrompt: Option<Measurement>, characters: nat)
  {
    /** A provider never reports a prompt of no tokens: such a report is not a measurement. */
    ghost predicate Valid() {
      window.Valid() && (lastPrompt.Some? ==> lastPrompt.value.inputTokens > 0)
    }

    function Growth(): real {
      if lastPrompt.None? || lastPrompt.value.characters == 0 then 1.0
      else characters as real / lastPrompt.value.characters as real
    }

    function ProjectedTokens(): Option<int> {
      match lastPrompt
      case None => None
      case Some(measured) => Some(Scaled(measured.inputTokens, Growth()))
    }

    /** The share of an unknown window is zero: its capacity is infinite. */
    function ProjectedUsedShare(): Option<real> {
      match (ProjectedTokens(), window)
      case (None, _) => None
      case (Some(_), Unknown) => Some(0.0)
      case (Some(projected), Declared(total, reserved)) =>
        if total - reserved <= 0 then None else Some(projected as real / (total - reserved) as real)
    }

    predicate Fits() {
      match ProjectedTokens()
      case None => true
      case Some(projected) => window.Fits(projected)
    }
  }

  datatype Decision = Decision(shouldCompact: bool, targetShare: real, keepRecentBlocks: nat)
  {
    function CalculateTarget(characters: nat): int {
      (characters as real * targetShare).Floor
    }
  }

  const SKIP := Decision(false, 1.0, 0)

  function KeepShare(targetShare: real, keepRecentBlocks: int): Decision {
    var share := if targetShare < 0.0 then 0.0 else if targetShare > 1.0 then 1.0 else targetShare;
    Decision(true, share, if keepRecentBlocks < 0 then 0 else keepRecentBlocks)
  }

  datatype Policy = Policy(maxShare: real, targetShare: real, keepRecentBlocks: int)
  {
    predicate Accepted() {
      0.0 < maxShare <= 1.0 && 0.0 < targetShare < maxShare
    }

    function Decide(budget: Budget): Decision
      requires Accepted()
    {
      match budget.ProjectedUsedShare()
      case None => SKIP
      case Some(used) => DecideAt(used)
    }

    /** The decision at a share of the window; shares that disagree may get here before they are refused. */
    function DecideAt(used: real): Decision
      requires used != 0.0 || Accepted()
    {
      if used <= maxShare then SKIP else KeepShare(targetShare / used, keepRecentBlocks)
    }
  }

  /** The shares an application gets when it declares none. */
  const DEFAULT_POLICY := Policy(0.9, 0.7, 4)

  /** A constructor refuses shares that disagree, and keeps the others. */
  function Build(maxShare: real, targetShare: real, keepRecentBlocks: int): (policy: Option<Policy>)
    ensures policy.Some? ==> policy.value == Policy(maxShare, targetShare, keepRecentBlocks)
  {
    if maxShare <= 0.0 || maxShare > 1.0 then None
    else if targetShare <= 0.0 || targetShare >= maxShare then None
    else Some(Policy(maxShare, targetShare, keepRecentBlocks))
  }

  lemma {:induction false} Cancels(a: real, b: real, factor: real)
    requires factor > 0.0
    ensures a < b <==> a * factor < b * factor
    ensures a == b <==> a * factor == b * factor
  {
    assert a < b ==> a * factor < b * factor;
    assert a > b ==> a * factor > b * factor;
  }

  lemma {:induction false} ShareOrder(projected: int, capacity: nat, share: real)
    requires capacity > 0
    ensures projected as real / capacity as real <= share <==> projected as real <= share * capacity as real
  {
    var q := projected as real / capacity as real;
    assert q * capacity as real == projected as real;
    if q <= share {
      assert q * capacity as real <= share * capacity as real;
    } else {
      assert q * capacity as real > share * capacity as real;
    }
  }

  /** A policy compacts exactly when a measured prompt outgrows its share of a declared, non-empty window. */
  lemma {:induction false} CompactsExactlyPastItsShare(policy: Policy, budget: Budget)
    requires policy.Accepted() && budget.Valid()
    ensures policy.Decide(budget).shouldCompact
      <==> && budget.window.Declared?
           && budget.lastPrompt.Some?
           && budget.window.totalTokens > budget.window.reservedOutputTokens
           && budget.ProjectedTokens().value as real
              > policy.maxShare * (budget.window.totalTokens - budget.window.reservedOutputTokens) as real
  {
    if budget.window.Declared? && budget.lastPrompt.Some? {
      var capacity := budget.window.totalTokens - budget.window.reservedOutputTokens;
      if capacity > 0 {
        ShareOrder(budget.ProjectedTokens().value, capacity, policy.maxShare);
      }
    }
  }

  /** The kept share of a compacting policy is the target over what is used, never clamped. */
  lemma {:induction false} KeptShare(policy: Policy, budget: Budget)
    requires policy.Accepted() && budget.Valid() && policy.Decide(budget).shouldCompact
    ensures budget.window.Declared? && budget.ProjectedTokens().Some?
    ensures budget.window.totalTokens > budget.window.reservedOutputTokens
    ensures var capacity := (budget.window.totalTokens - budget.window.reservedOutputTokens) as real;
      var projected := budget.ProjectedTokens().value as real;
      && projected > policy.maxShare * capacity > policy.targetShare * capacity > 0.0
      && policy.Decide(budget).targetShare * projected == policy.targetShare * capacity
      && 0.0 < policy.Decide(budget).targetShare < 1.0
      && policy.Decide(budget).keepRecentBlocks == (if policy.keepRecentBlocks > 0 then policy.keepRecentBlocks else 0)
    ensures budget.characters > 0 ==> 0 <= policy.Decide(budget).CalculateTarget(budget.characters) < budget.characters
  {
    CompactsExactlyPastItsShare(policy, budget);
    var capacity := (budget.window.totalTokens - budget.window.reservedOutputTokens) as real;
    var projected := budget.ProjectedTokens().value as real;
    assert policy.maxShare * capacity > policy.targetShare * capacity;
    assert policy.targetShare * capacity > 0.0;
    var used := projected / capacity;
    assert used * capacity == projected;
    var share := policy.targetShare / used;
    assert share * used == policy.targetShare;
    assert share * projected == policy.targetShare * capacity by {
      assert share * projected == share * (used * capacity);
      assert share * (used * capacity) == (share * used) * capacity;
    }
    Cancels(0.0, share, projected);
    Cancels(share, 1.0, projected);
  }

  /** A target is the kept share of what there is, less a part of a character. */
  lemma {:induction false} TargetIsTheShare(decision: Decision, characters: nat)
    ensures var kept := characters as real * decision.targetShare;
      kept - 1.0 < decision.CalculateTarget(characters) as real <= kept
  {
    var kept := characters as real * decision.targetShare;
    assert decision.CalculateTarget(characters) == kept.Floor;
  }

  /** Shrinking a context to a share shrinks its growth over a measured size to that share. */
  lemma {:induction false} GrowthShrinks(measured: real, before: real, after: real, share: real)
    requires measured > 0.0 && after <= before * share
    ensures after / measured <= (before / measured) * share
  {
    var a, b := after / measured, before / measured;
    assert a * measured == after && b * measured == before;
    assert (b * share) * measured == before * share by {
      assert (b * share) * measured == (b * measured) * share;
    }
    if a > b * share {
      assert a * measured > (b * share) * measured;
    }
  }

  /** The rounding of both projections together costs less than one token. */
  lemma {:induction false} RoundingLoss(exact: real, share: real, projected: int, kept: real)
    requires projected == Round(exact) && 0.0 < share < 1.0
    requires share * projected as real == kept
    ensures Round(exact * share) as real < kept + 1.0
  {
    assert exact < projected as real + 0.5;
    assert exact * share < (projected as real + 0.5) * share;
    assert (projected as real + 0.5) * share == kept + 0.5 * share;
  }

  lemma {:induction false} RoundGrows(x: real, y: real)
    requires x <= y
    ensures Round(x) <= Round(y)
    ensures Round(x) as real <= Round(y) as real
  {
  }

  /** What is projected after a met target, given the kept share as a plain number. */
  lemma {:induction false} ProjectionAfter(budget: Budget, characters: nat, share: real, kept: real)
    requires budget.Valid() && budget.lastPrompt.Some? && budget.lastPrompt.value.characters > 0
    requires 0.0 < share < 1.0
    requires share * budget.ProjectedTokens().value as real == kept
    requires characters as real <= budget.characters as real * share
    ensures budget.(characters := characters).ProjectedTokens().Some?
    ensures budget.(characters := characters).ProjectedTokens().value as real < kept + 1.0
  {
    var after := budget.(characters := characters);
    GrowthShrinks(budget.lastPrompt.value.characters as real, budget.characters as real, characters as real, share);
    MetTarget(budget.lastPrompt.value.inputTokens, budget.Growth(), after.Growth(), share,
      budget.ProjectedTokens().value, kept);
  }

  lemma {:induction false} UnderTarget(before: nat, share: real, after: nat)
    requires after <= (before as real * share).Floor
    ensures after as real <= before as real * share
  {
  }

  /** The policy compacted a context, and the compaction met the target that was computed for it. */
  predicate MetAfterCompacting(policy: Policy, budget: Budget, characters: nat)
    requires policy.Accepted() && budget.Valid()
  {
    policy.Decide(budget).shouldCompact && characters <= policy.Decide(budget).CalculateTarget(budget.characters)
  }

  /**
   * End to end: when a policy compacts a context over a prompt of some measured size, and the
   * compaction meets the target it computed, the projection lands less than one token above the
   * target share of the window, so the result fits it.
   */
  lemma {:induction false} CompactedFits(policy: Policy, budget: Budget, characters: nat)
    requires policy.Accepted() && budget.Valid()
    requires budget.lastPrompt.Some? && budget.lastPrompt.value.characters > 0
    ensures MetAfterCompacting(policy, budget, characters) ==>
      var after := budget.(characters := characters);
      && budget.window.Declared?
      && after.ProjectedTokens().Some?
      && after.ProjectedTokens().value as real
         < policy.targetShare * (budget.window.totalTokens - budget.window.reservedOutputTokens) as real + 1.0
      && after.Fits()
  {
    if MetAfterCompacting(policy, budget, characters) {
      KeptShare(policy, budget);
      var kept := policy.targetShare * (budget.window.totalTokens - budget.window.reservedOutputTokens) as real;
      UnderTarget(budget.characters, policy.Decide(budget).targetShare, characters);
      ProjectionAfter(budget, characters, policy.Decide(budget).targetShare, kept);
      BelowCapacity(policy, budget.window, budget.(characters := characters).ProjectedTokens().value);
    }
  }

  lemma {:induction false} BelowCapacity(policy: Policy, window: Window, projected: int)
    requires policy.Accepted() && window.Declared? && window.reservedOutputTokens < window.totalTokens
    requires projected as real < policy.targetShare * (window.totalTokens - window.reservedOutputTokens) as real + 1.0
    ensures window.Fits(projected)
  {
    var capacity := (window.totalTokens - window.reservedOutputTokens) as real;
    assert policy.targetShare * capacity < 1.0 * capacity;
  }

  /** The arithmetic of a met target, from the first rounding to the second. */
  lemma {:induction false} MetTarget(tokens: nat, growth: real, shrunk: real, share: real, projected: int, kept: real)
    requires tokens > 0 && shrunk <= growth * share
    requires projected == Scaled(tokens, growth)
    requires 0.0 < share < 1.0 && share * projected as real == kept
    ensures Scaled(tokens, shrunk) as real < kept + 1.0
  {
    var count := tokens as real;
    var exact := count * growth;
    assert count * shrunk <= exact * share by {
      assert count * shrunk <= count * (growth * share);
      assert count * (growth * share) == exact * share;
    }
    RoundingLoss(exact, share, projected, kept);
    RoundGrows(count * shrunk, exact * share);
    assert Round(count * shrunk) as real < kept + 1.0;
    assert Scaled(tokens, shrunk) == Round(count * shrunk);
  }

  /**
   * What is projected is what was measured, scaled as the size is, to the nearest whole token, halves
   * upwards: of a context of the measured size exactly the measured tokens, and so of one whose size was
   * never measured.
   */
  lemma {:induction false} ProjectsInProportion(budget: Budget)
    requires budget.lastPrompt.Some?
    ensures var measured := budget.lastPrompt.value;
      var projected := budget.ProjectedTokens();
      && projected.Some?
      && (measured.characters == 0 || measured.characters == budget.characters ==>
            projected.value == measured.inputTokens)
      && (measured.characters > 0 ==>
            (2 * projected.value - 1) * measured.characters
            <= 2 * measured.inputTokens * budget.characters
            < (2 * projected.value + 1) * measured.characters)
  {
    var measured := budget.lastPrompt.value;
    if measured.characters > 0 {
      GrowthTimesSize(budget.characters, measured.characters);
      ProportionOf(measured.inputTokens, budget.Growth(), measured.characters, budget.characters,
        Scaled(measured.inputTokens, budget.Growth()));
    }
  }

  lemma {:induction false} GrowthTimesSize(characters: nat, size: nat)
    requires size > 0
    ensures characters as real / size as real * size as real == characters as real
    ensures characters == size ==> characters as real / size as real == 1.0
  {
    Cancels(characters as real / size as real, 1.0, size as real);
  }

  lemma {:induction false} ProportionOf(tokens: nat, growth: real, size: nat, characters: nat, projected: int)
    requires size > 0 && growth * size as real == characters as real && projected == Scaled(tokens, growth)
    ensures (2 * projected - 1) * size <= 2 * tokens * characters < (2 * projected + 1) * size
  {
    var exact := tokens as real * growth;
    var product := tokens as real * characters as real;
    assert exact * size as real == product by {
      assert exact * size as real == tokens as real * (growth * size as real);
    }
    Between(projected as real - 0.5, exact, projected as real + 0.5, size as real, product);
    WholeProportion(tokens, size, characters, projected);
  }

  lemma {:induction false} Between(low: real, exact: real, high: real, size: real, product: real)
    requires size > 0.0 && low <= exact < high && exact * size == product
    ensures low * size <= product < high * size
  {
    Cancels(low, exact, size);
    Cancels(exact, high, size);
  }

  lemma {:induction false} WholeProportion(tokens: nat, size: nat, characters: nat, projected: int)
    requires (projected as real - 0.5) * size as real <= tokens as real * characters as real
    requires tokens as real * characters as real < (projected as real + 0.5) * size as real
    ensures (2 * projected - 1) * size <= 2 * tokens * characters < (2 * projected + 1) * size
  {
    var low, high, exact := (2 * projected - 1) * size, (2 * projected + 1) * size, 2 * tokens * characters;
    assert low as real == 2.0 * ((projected as real - 0.5) * size as real);
    assert high as real == 2.0 * ((projected as real + 0.5) * size as real);
    assert exact as real == 2.0 * (tokens as real * characters as real);
  }

  /** Without a measured size nothing grows or shrinks, so meeting the target changes no projection. */
  lemma {:induction false} UnmeasuredSizeIgnoresCompaction(budget: Budget, characters: nat)
    requires budget.lastPrompt.Some? && budget.lastPrompt.value.characters == 0
    ensures budget.(characters := characters).ProjectedTokens() == budget.ProjectedTokens()
    ensures budget.ProjectedTokens() == Some(budget.lastPrompt.value.inputTokens as int)
  {
  }

  /** After a compaction that met its target, the budget fits exactly when the size was measured or the prompt fitted already. */
  lemma {:induction false} CompactedFitsExactlyWhenMeasured(policy: Policy, budget: Budget, characters: nat)
    requires policy.Accepted() && budget.Valid()
    ensures MetAfterCompacting(policy, budget, characters) ==>
      && budget.lastPrompt.Some?
      && var measurement := budget.lastPrompt.value;
      var fitsAnyway := measurement.characters > 0 || budget.window.Fits(measurement.inputTokens);
      (budget.(characters := characters).Fits() <==> fitsAnyway)
  {
    if MetAfterCompacting(policy, budget, characters) {
      KeptShare(policy, budget);
      if budget.lastPrompt.value.characters > 0 {
        CompactedFits(policy, budget, characters);
      } else {
        UnmeasuredSizeIgnoresCompaction(budget, characters);
      }
    }
  }

  /** The unmeasured case does go wrong: a window of ten tokens, a prompt of eleven, nothing left of the context. */
  lemma {:induction false} UnmeasuredSizeMayNotFit()
    ensures var budget := Budget(Declared(10, 0), Some(Measurement(11, 0)), 100);
      && DEFAULT_POLICY.Accepted() && budget.Valid()
      && DEFAULT_POLICY.Decide(budget).shouldCompact
      && 0 <= DEFAULT_POLICY.Decide(budget).CalculateTarget(100)
      && !budget.(characters := 0).Fits()
  {
    var budget := Budget(Declared(10, 0), Some(Measurement(11, 0)), 100);
    UnmeasuredSizeIgnoresCompaction(budget, 0);
    CompactsExactlyPastItsShare(DEFAULT_POLICY, budget);
    assert DEFAULT_POLICY.maxShare * 10.0 == 9.0;
    KeptShare(DEFAULT_POLICY, budget);
  }
}
