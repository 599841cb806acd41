/**
 * Which shares a window-share policy may be made of
 * (packages/core/src/domain/context/window-share-compaction.policy.ts).
 */
module PolicyShares {
  import opened Options
  import opened ContextBudgets

  /** Everything past the window is compacted, and a compaction keeps something but at most some fixed part. */
  ghost predicate Sheds(policy: Policy, most: real) {
    forall used: real :: used > 0.0 ==>
      var decision := policy.DecideAt(used);
      && (used > 1.0 ==> decision.shouldCompact)
      && (decision.shouldCompact ==> 0.0 < decision.targetShare <= most)
  }

  /** Shares are accepted exactly when the policy they make does so for some part smaller than the whole. */
  lemma {:induction false} BuildsExactlyThePoliciesThatShed(maxShare: real, targetShare: real, keepRecentBlocks: int)
    ensures Build(maxShare, targetShare, keepRecentBlocks).Some?
      <==> exists most: real :: most < 1.0 && Sheds(Policy(maxShare, targetShare, keepRecentBlocks), most)
  {
    var policy := Policy(maxShare, targetShare, keepRecentBlocks);
    if policy.Accepted() {
      AcceptedSheds(policy);
    } else {
      forall most: real | most < 1.0
        ensures !Sheds(policy, most)
      {
        RefusedNeverSheds(policy, most);
      }
    }
  }

  lemma {:induction false} AcceptedSheds(policy: Policy)
    requires policy.Accepted()
    ensures policy.targetShare / policy.maxShare < 1.0 && Sheds(policy, policy.targetShare / policy.maxShare)
  {
    var most := policy.targetShare / policy.maxShare;
    QuotientsShrink(policy.targetShare, policy.maxShare, policy.maxShare);
    forall used: real | used > 0.0 && policy.DecideAt(used).shouldCompact
      ensures 0.0 < policy.DecideAt(used).targetShare <= most
    {
      QuotientsShrink(policy.targetShare, policy.maxShare, used);
    }
  }

  lemma {:induction false} QuotientsShrink(target: real, max: real, used: real)
    requires 0.0 < target < max <= used
    ensures 0.0 < target / used <= target / max < 1.0
  {
    var small, large := target / used, target / max;
    assert small * used == target && large * max == target;
    Cancels(0.0, small, used);
    Cancels(0.0, large, max);
    Cancels(large, 1.0, max);
    Cancels(max, used, large);
    Cancels(large, small, used);
  }

  /** Some share of the window shows what is wrong with a policy whose shares disagree. */
  lemma {:induction false} RefusedNeverSheds(policy: Policy, most: real)
    requires !policy.Accepted() && most < 1.0
    ensures !Sheds(policy, most)
  {
    var max, target := policy.maxShare, policy.targetShare;
    if max > 1.0 {
      assert !policy.DecideAt((1.0 + max) / 2.0).shouldCompact;
    } else if target <= 0.0 {
      assert policy.DecideAt(2.0).targetShare <= 0.0;
    } else if max <= 0.0 || target > max {
      assert target / target == 1.0;
      assert policy.DecideAt(target).targetShare == 1.0;
    } else {
      var used := NearlyAll(target, most);
      assert policy.DecideAt(used).shouldCompact && policy.DecideAt(used).targetShare > most;
    }
  }

  /** A share just past a target, of which the target is more than most. */
  lemma {:induction false} NearlyAll(target: real, most: real) returns (used: real)
    requires target > 0.0 && most < 1.0
    ensures used > target && target / used > most
  {
    if most <= 0.0 {
      used := 2.0 * target;
      assert (target / used) * used == target;
    } else {
      used := Halfway(target, most);
    }
  }

  lemma {:induction false} Halfway(target: real, most: real) returns (used: real)
    requires target > 0.0 && 0.0 < most < 1.0
    ensures used > target && target / used > most
  {
    var part := (1.0 + most) / 2.0;
    used := target / part;
    assert used * part == target;
    Cancels(part, 1.0, used);
    assert used > 0.0 by {
      assert used <= 0.0 ==> used * part <= 0.0;
    }
    var kept := target / used;
    assert kept * used == target;
    Cancels(kept, part, used);
  }
}
