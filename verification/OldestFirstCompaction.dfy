/**
 * Dropping the oldest answered exchanges until a context fits
 * (packages/core/src/runtime/context/oldest-first-compaction.strategy.ts), by the size
 * packages/core/src/runtime/context/context-measurer.service.ts gives it.
 */
module OldestFirstCompaction {
  import opened Options
  import opened ContextBlocks

  const MAX_COMPACTION_ROUNDS := 2

  /** A tool as the model reads it; `parameters` is its schema written as JSON. */
  datatype Tool = Tool(name: string, description: string, parameters: string)

  /** Everything of a context that compaction never touches. */
  datatype Prefix = Prefix(tools: seq<Tool>, runtimeInstructions: Option<string>, agentPrompt: Option<string>)

  function Length(text: Option<string>): nat {
    if text.None? then 0 else |text.value|
  }

  function MeasureTools(tools: seq<Tool>): nat {
    if tools == [] then 0
    else |tools[0].name| + |tools[0].description| + |tools[0].parameters| + MeasureTools(tools[1..])
  }

  function MeasureMessages(messages: seq<Message>): nat {
    if messages == [] then 0 else messages[0].Characters() + MeasureMessages(messages[1..])
  }

  function MeasureBlocks(blocks: seq<Block>): nat {
    if blocks == [] then 0 else MeasureMessages(blocks[0].messages) + MeasureBlocks(blocks[1..])
  }

  function Measure(prefix: Prefix, blocks: seq<Block>): nat {
    Length(prefix.runtimeInstructions) + Length(prefix.agentPrompt) + MeasureTools(prefix.tools) + MeasureBlocks(blocks)
  }

  /** A message as the model reads it, its images aside. */
  ghost function Text(message: Message): string {
    match message
    case UserMessage(text, _) => text
    case AssistantMessage(text) => text
    case ToolCallMessage(_, toolName, args, _) => toolName + "(" + args + ")"
    case ToolResultMessage(_, toolName, output, failed, _) => toolName + (if failed then " failed " else " ok ") + output
  }

  ghost function Images(message: Message): nat {
    if message.UserMessage? || message.ToolResultMessage? then |message.media| else 0
  }

  ghost function AllText(messages: seq<Message>): string {
    if messages == [] then "" else Text(messages[0]) + AllText(messages[1..])
  }

  ghost function AllImages(messages: seq<Message>): nat {
    if messages == [] then 0 else Images(messages[0]) + AllImages(messages[1..])
  }

  /** What blocks let the model read, one message after the other. */
  ghost function AllMessages(blocks: seq<Block>): seq<Message> {
    if blocks == [] then [] else blocks[0].messages + AllMessages(blocks[1..])
  }

  ghost function ToolText(tools: seq<Tool>): string {
    if tools == [] then "" else tools[0].name + tools[0].description + tools[0].parameters + ToolText(tools[1..])
  }

  ghost function Given(text: Option<string>): string {
    if text.Some? then text.value else ""
  }

  lemma {:induction false} TextOfBoth(some: seq<Message>, more: seq<Message>)
    ensures |AllText(some + more)| == |AllText(some)| + |AllText(more)|
    ensures AllImages(some + more) == AllImages(some) + AllImages(more)
  {
    if some == [] {
      assert some + more == more;
    } else {
      assert (some + more)[1..] == some[1..] + more;
      TextOfBoth(some[1..], more);
    }
  }

  lemma {:induction false} MeasuresMessages(messages: seq<Message>)
    ensures MeasureMessages(messages) == |AllText(messages)| + 258 * 4 * AllImages(messages)
  {
    if messages != [] {
      MeasuresMessages(messages[1..]);
    }
  }

  lemma {:induction false} MeasuresBlocks(blocks: seq<Block>)
    ensures MeasureBlocks(blocks) == |AllText(AllMessages(blocks))| + 258 * 4 * AllImages(AllMessages(blocks))
  {
    if blocks != [] {
      MeasuresBlocks(blocks[1..]);
      MeasuresMessages(blocks[0].messages);
      TextOfBoth(blocks[0].messages, AllMessages(blocks[1..]));
    }
  }

  lemma {:induction false} MeasuresTools(tools: seq<Tool>)
    ensures MeasureTools(tools) == |ToolText(tools)|
  {
    if tools != [] {
      MeasuresTools(tools[1..]);
    }
  }

  /** A context measures as many characters as the model is given to read, and a flat price for every image. */
  lemma {:induction false} MeasuresWhatIsRead(prefix: Prefix, blocks: seq<Block>)
    ensures var messages := AllMessages(blocks);
      var read := Given(prefix.runtimeInstructions) + Given(prefix.agentPrompt) + ToolText(prefix.tools) + AllText(messages);
      Measure(prefix, blocks) == |read| + 258 * 4 * AllImages(messages)
  {
    MeasuresTools(prefix.tools);
    MeasuresBlocks(blocks);
  }

  predicate Fits(prefix: Prefix, blocks: seq<Block>, target: int) {
    Measure(prefix, blocks) <= target
  }

  function Assemble(kept: seq<Block>, summary: Option<Block>): seq<Block> {
    if summary.None? then kept else [summary.value] + kept
  }

  // ---------------------------------------------------------------- what may be dropped

  /** Blocks outside the most recent ones. */
  function Old(blocks: seq<Block>, keepRecentBlocks: nat): seq<Block> {
    if |blocks| <= keepRecentBlocks then [] else blocks[..|blocks| - keepRecentBlocks]
  }

  /** The most recent blocks, protected whatever they are. */
  function Recent(blocks: seq<Block>, keepRecentBlocks: nat): seq<Block> {
    if |blocks| <= keepRecentBlocks then blocks else blocks[|blocks| - keepRecentBlocks..]
  }

  /** How many blocks may be dropped. */
  function Removables(blocks: seq<Block>): nat {
    if blocks == [] then 0 else (if blocks[0].IsRemovable() then 1 else 0) + Removables(blocks[1..])
  }

  /** What is left once the first `k` removable blocks are gone. */
  function Without(blocks: seq<Block>, k: nat): seq<Block> {
    if blocks == [] || k == 0 then blocks
    else if blocks[0].IsRemovable() then Without(blocks[1..], k - 1)
    else [blocks[0]] + Without(blocks[1..], k)
  }

  /** The first `k` removable blocks. */
  function Taken(blocks: seq<Block>, k: nat): seq<Block> {
    if blocks == [] || k == 0 then []
    else if blocks[0].IsRemovable() then [blocks[0]] + Taken(blocks[1..], k - 1)
    else Taken(blocks[1..], k)
  }

  /** The blocks nothing may drop: open ones and pinned ones. */
  ghost function Obligations(blocks: seq<Block>): seq<Block> {
    if blocks == [] then []
    else (if blocks[0].IsRemovable() then [] else [blocks[0]]) + Obligations(blocks[1..])
  }

  function Kept(blocks: seq<Block>, keepRecentBlocks: nat, k: nat): seq<Block> {
    Without(Old(blocks, keepRecentBlocks), k) + Recent(blocks, keepRecentBlocks)
  }

  /** As many blocks fall as asked for, all of them removable. */
  lemma {:induction false} DroppingCounts(blocks: seq<Block>, k: nat)
    requires k <= Removables(blocks)
    ensures |Taken(blocks, k)| == k
    ensures forall block :: block in Taken(blocks, k) ==> block.IsRemovable()
    ensures Removables(Without(blocks, k)) == Removables(blocks) - k
  {
    if blocks != [] && k > 0 {
      DroppingCounts(blocks[1..], if blocks[0].IsRemovable() then k - 1 else k);
    }
  }

  /** What is kept and what is dropped make up what there was. */
  lemma {:induction false} DroppingConserves(blocks: seq<Block>, k: nat)
    ensures multiset(Without(blocks, k)) + multiset(Taken(blocks, k)) == multiset(blocks)
  {
    if blocks != [] && k > 0 {
      var head, rest := blocks[0], blocks[1..];
      assert multiset(blocks) == multiset{head} + multiset(rest) by {
        assert blocks == [head] + rest;
      }
      DroppingConserves(rest, if head.IsRemovable() then k - 1 else k);
    }
  }

  /** What falls is what the rest gets smaller by. */
  lemma {:induction false} DroppingMeasures(blocks: seq<Block>, k: nat)
    ensures MeasureBlocks(Without(blocks, k)) + MeasureBlocks(Taken(blocks, k)) == MeasureBlocks(blocks)
  {
    if blocks != [] && k > 0 {
      DroppingMeasures(blocks[1..], if blocks[0].IsRemovable() then k - 1 else k);
    }
  }

  /** Obligations all stay, in their order. */
  lemma {:induction false} DroppingSparesObligations(blocks: seq<Block>, k: nat)
    ensures Obligations(Without(blocks, k)) == Obligations(blocks)
  {
    if blocks != [] && k > 0 {
      DroppingSparesObligations(blocks[1..], if blocks[0].IsRemovable() then k - 1 else k);
    }
  }

  lemma {:induction false} MeasureOfBoth(first: seq<Block>, second: seq<Block>)
    ensures MeasureBlocks(first + second) == MeasureBlocks(first) + MeasureBlocks(second)
  {
    if first == [] {
      assert first + second == second;
    } else {
      assert (first + second)[1..] == first[1..] + second;
      MeasureOfBoth(first[1..], second);
    }
  }

  /** Dropping more never measures more. */
  lemma {:induction false} DroppingShrinks(blocks: seq<Block>, few: nat, many: nat)
    requires few <= many <= Removables(blocks)
    ensures MeasureBlocks(Without(blocks, many)) <= MeasureBlocks(Without(blocks, few))
  {
    if blocks != [] && many > 0 {
      if few == 0 {
        DroppingMeasures(blocks, many);
      } else if blocks[0].IsRemovable() {
        DroppingShrinks(blocks[1..], few - 1, many - 1);
      } else {
        DroppingShrinks(blocks[1..], few, many);
      }
    }
  }

  /** The same, for whole contexts. */
  lemma {:induction false} KeepingLessMeasuresLess(prefix: Prefix, blocks: seq<Block>, keep: nat, few: nat, many: nat)
    requires few <= many <= Removables(Old(blocks, keep))
    ensures Measure(prefix, Kept(blocks, keep, many)) <= Measure(prefix, Kept(blocks, keep, few))
  {
    DroppingShrinks(Old(blocks, keep), few, many);
    MeasureOfBoth(Without(Old(blocks, keep), few), Recent(blocks, keep));
    MeasureOfBoth(Without(Old(blocks, keep), many), Recent(blocks, keep));
  }

  // ---------------------------------------------------------------- the loop that drops

  /** The index of the first removable block before `limit`, which is what `findIndex` answers. */
  function Oldest(blocks: seq<Block>, limit: int): (index: Option<nat>)
    ensures index.Some? ==> index.value < |blocks|
  {
    if blocks == [] || limit <= 0 then None
    else if blocks[0].IsRemovable() then Some(0)
    else
      match Oldest(blocks[1..], limit - 1)
      case None => None
      case Some(index) => Some(index + 1)
  }

  function RemoveAt(blocks: seq<Block>, at: nat): seq<Block>
    requires at < |blocks|
  {
    blocks[..at] + blocks[at + 1..]
  }

  /** Nothing is found in what is left exactly when every removable block fell. */
  lemma {:induction false} FoundUnlessAllFell(blocks: seq<Block>, k: nat, recent: seq<Block>)
    requires k <= Removables(blocks)
    ensures var left := Without(blocks, k);
      Oldest(left + recent, |left|).None? <==> k == Removables(blocks)
  {
    var left := Without(blocks, k);
    if blocks != [] {
      if blocks[0].IsRemovable() {
        if k > 0 {
          FoundUnlessAllFell(blocks[1..], k - 1, recent);
        } else {
          assert (left + recent)[0] == blocks[0];
        }
      } else {
        FoundUnlessAllFell(blocks[1..], k, recent);
        assert (left + recent)[1..] == Without(blocks[1..], k) + recent;
      }
    }
  }

  /** The block the loop splices out is the next one in line. */
  lemma {:induction false} OldestIsNext(blocks: seq<Block>, k: nat, recent: seq<Block>)
    requires Oldest(Without(blocks, k) + recent, |Without(blocks, k)|).Some?
    ensures var left := Without(blocks, k) + recent;
      var at := Oldest(left, |Without(blocks, k)|).value;
      && RemoveAt(left, at) == Without(blocks, k + 1) + recent
      && Taken(blocks, k + 1) == Taken(blocks, k) + [left[at]]
    decreases |blocks|, 1
  {
    if blocks != [] {
      if !blocks[0].IsRemovable() {
        OldestIsNextBehind(blocks, k, recent);
      } else if k == 0 {
        assert Without(blocks, 1) == blocks[1..] && Taken(blocks, 1) == [blocks[0]];
        assert RemoveAt(blocks + recent, 0) == blocks[1..] + recent;
      } else {
        OldestIsNext(blocks[1..], k - 1, recent);
      }
    }
  }

  /** The same behind a block nothing may drop. */
  lemma {:induction false} OldestIsNextBehind(blocks: seq<Block>, k: nat, recent: seq<Block>)
    requires blocks != [] && !blocks[0].IsRemovable()
    requires Oldest(Without(blocks, k) + recent, |Without(blocks, k)|).Some?
    ensures var left := Without(blocks, k) + recent;
      var at := Oldest(left, |Without(blocks, k)|).value;
      && RemoveAt(left, at) == Without(blocks, k + 1) + recent
      && Taken(blocks, k + 1) == Taken(blocks, k) + [left[at]]
    decreases |blocks|, 0
  {
    var first, rest := blocks[0], blocks[1..];
    var inner, further := Without(rest, k), Without(rest, k + 1);
    WithoutBehind(blocks, first, rest, k);
    WithoutBehind(blocks, first, rest, k + 1);
    OldestBehind(first, inner, recent);
    OldestIsNext(rest, k, recent);
    FirstStays(first, inner, further, recent, Oldest(inner + recent, |inner|).value);
  }

  lemma {:induction false} FirstStays(first: Block, inner: seq<Block>, further: seq<Block>, recent: seq<Block>, at: nat)
    requires at < |inner + recent| && RemoveAt(inner + recent, at) == further + recent
    ensures ([first] + inner + recent)[at + 1] == (inner + recent)[at]
    ensures RemoveAt([first] + inner + recent, at + 1) == [first] + further + recent
  {
    Associate(first, inner, recent);
    Associate(first, further, recent);
    RemoveBehind(first, inner + recent, at);
  }

  lemma {:induction false} WithoutBehind(blocks: seq<Block>, first: Block, rest: seq<Block>, k: nat)
    requires blocks != [] && first == blocks[0] && rest == blocks[1..] && !first.IsRemovable()
    ensures Without(blocks, k) == [first] + Without(rest, k) && Taken(blocks, k) == Taken(rest, k)
  {
    if k == 0 {
      assert blocks == [first] + rest;
    }
  }

  lemma {:induction false} OldestBehind(first: Block, inner: seq<Block>, recent: seq<Block>)
    requires !first.IsRemovable()
    ensures Oldest([first] + inner + recent, |[first] + inner|)
         == match Oldest(inner + recent, |inner|)
            case None => None
            case Some(at) => Some(at + 1)
  {
    Associate(first, inner, recent);
    assert ([first] + (inner + recent))[1..] == inner + recent;
  }

  lemma {:induction false} RemoveBehind(first: Block, rest: seq<Block>, at: nat)
    requires at < |rest|
    ensures RemoveAt([first] + rest, at + 1) == [first] + RemoveAt(rest, at)
  {
    assert ([first] + rest)[..at + 1] == [first] + rest[..at];
    assert ([first] + rest)[at + 2..] == rest[at + 1..];
  }

  /** The first number from `from` on that is enough, or the limit. */
  function First(enough: nat -> bool, from: nat, limit: nat): (count: nat)
    requires from <= limit
    ensures from <= count <= limit
    ensures enough(count) || count == limit
    ensures forall j: nat :: from <= j < count ==> !enough(j)
    decreases limit - from
  {
    if enough(from) || from == limit then from else First(enough, from + 1, limit)
  }

  /** Whether what is left after `k` blocks fell meets the target. */
  predicate Enough(prefix: Prefix, blocks: seq<Block>, keep: nat, summary: Option<Block>, target: int, k: nat) {
    Fits(prefix, Assemble(Kept(blocks, keep, k), summary), target)
  }

  /** How many blocks the loop has dropped when it stops, having started at `from`. */
  function Needed(prefix: Prefix, blocks: seq<Block>, keep: nat, summary: Option<Block>, target: int, from: nat): (count: nat)
    requires from <= Removables(Old(blocks, keep))
    ensures from <= count <= Removables(Old(blocks, keep))
  {
    First((k: nat) => Enough(prefix, blocks, keep, summary, target, k), from, Removables(Old(blocks, keep)))
  }

  /** The loop stops when that is enough or nothing is left to drop, and not before. */
  lemma {:induction false} NeededIsLeast(prefix: Prefix, blocks: seq<Block>, keep: nat, summary: Option<Block>, target: int, from: nat)
    requires from <= Removables(Old(blocks, keep))
    ensures var count := Needed(prefix, blocks, keep, summary, target, from);
      && (Enough(prefix, blocks, keep, summary, target, count) || count == Removables(Old(blocks, keep)))
      && (forall j: nat :: from <= j < count ==> !Enough(prefix, blocks, keep, summary, target, j))
  {
    var enough := (k: nat) => Enough(prefix, blocks, keep, summary, target, k);
    var count := First(enough, from, Removables(Old(blocks, keep)));
    forall j: nat | from <= j < count ensures !Enough(prefix, blocks, keep, summary, target, j) {
      assert !enough(j);
    }
  }

  lemma {:induction false} NeededSteps(prefix: Prefix, blocks: seq<Block>, keep: nat, summary: Option<Block>, target: int, from: nat)
    requires from <= Removables(Old(blocks, keep))
    ensures Needed(prefix, blocks, keep, summary, target, from)
         == if Enough(prefix, blocks, keep, summary, target, from) || from == Removables(Old(blocks, keep)) then from
            else Needed(prefix, blocks, keep, summary, target, from + 1)
  {
  }

  /** What the loop's two lists hold: the first so many removable blocks, and everything else. */
  ghost predicate Dropping(blocks: seq<Block>, keep: nat, kept: seq<Block>, dropped: seq<Block>) {
    && |dropped| <= Removables(Old(blocks, keep))
    && dropped == Taken(Old(blocks, keep), |dropped|)
    && kept == Kept(blocks, keep, |dropped|)
  }

  /** One round of the loop. */
  lemma {:induction false} OneMoreFalls(blocks: seq<Block>, keep: nat, kept: seq<Block>, dropped: seq<Block>)
    requires Dropping(blocks, keep, kept, dropped)
    ensures match Oldest(kept, |kept| - keep)
      case None => |dropped| == Removables(Old(blocks, keep))
      case Some(at) =>
        && |dropped| < Removables(Old(blocks, keep))
        && Dropping(blocks, keep, RemoveAt(kept, at), dropped + [kept[at]])
  {
    var old_, recent, k := Old(blocks, keep), Recent(blocks, keep), |dropped|;
    var left := Without(old_, k);
    FoundUnlessAllFell(old_, k, recent);
    assert Oldest(left + recent, |left + recent| - keep) == Oldest(left + recent, |left|);
    if k < Removables(old_) {
      OldestIsNext(old_, k, recent);
    }
  }

  lemma {:induction false} NoneIsOldest(blocks: seq<Block>, limit: int)
    requires Oldest(blocks, limit).None?
    ensures forall i :: 0 <= i < |blocks| && i < limit ==> !blocks[i].closed || blocks[i].pinned
  {
    if blocks != [] && limit > 0 {
      NoneIsOldest(blocks[1..], limit - 1);
      assert forall i :: 1 <= i < |blocks| ==> blocks[i] == blocks[1..][i - 1];
    }
  }

  method DropUntilItFits(
    prefix: Prefix, ghost blocks: seq<Block>, kept: seq<Block>, dropped: seq<Block>, summary: Option<Block>,
    keep: nat, target: int)
    returns (left: seq<Block>, gone: seq<Block>)
    requires Dropping(blocks, keep, kept, dropped)
    ensures Dropping(blocks, keep, left, gone)
    ensures |gone| == Needed(prefix, blocks, keep, summary, target, |dropped|)
    ensures Fits(prefix, Assemble(left, summary), target)
      || forall i :: 0 <= i < |left| - keep ==> !left[i].closed || left[i].pinned
  {
    left, gone := kept, dropped;
    while !Fits(prefix, Assemble(left, summary), target)
      invariant Dropping(blocks, keep, left, gone)
      invariant Needed(prefix, blocks, keep, summary, target, |dropped|)
             == Needed(prefix, blocks, keep, summary, target, |gone|)
      decreases |left|
    {
      NeededSteps(prefix, blocks, keep, summary, target, |gone|);
      OneMoreFalls(blocks, keep, left, gone);
      var oldest := Oldest(left, |left| - keep);
      if oldest.None? {
        NoneIsOldest(left, |left| - keep);
        return;
      }
      gone := gone + [left[oldest.value]];
      left := RemoveAt(left, oldest.value);
    }
    NeededSteps(prefix, blocks, keep, summary, target, |gone|);
  }

  // ---------------------------------------------------------------- summaries

  /** What a summarizer answers in each round for the blocks that fell; nothing when it fails. */
  type Summarizer = (nat, seq<Block>) -> Option<string>

  predicate IsSpace(c: char) {
    || c in " \t\n\r" || c in "\U{000B}\U{000C}\U{00A0}\U{1680}\U{2028}\U{2029}\U{202F}\U{205F}\U{3000}\U{FEFF}"
    || '\U{2000}' <= c <= '\U{200A}'
  }

  predicate IsBlank(text: string) {
    forall i :: 0 <= i < |text| ==> IsSpace(text[i])
  }

  function BuildSummary(summarizer: Option<Summarizer>, round: nat, dropped: seq<Block>): Option<Block> {
    if summarizer.None? || dropped == [] then None
    else
      match summarizer.value(round, dropped)
      case None => None
      case Some(text) =>
        if IsBlank(text) then None else Some(SummaryBlock(UserMessage(text, []), dropped[0].firstRevision))
  }

  /** How many blocks fell and the summary that stands for them. */
  datatype Compaction = Compaction(count: nat, summary: Option<Block>)

  function Compacted(prefix: Prefix, blocks: seq<Block>, summarizer: Option<Summarizer>, keep: nat, target: int): Compaction {
    var old_ := Old(blocks, keep);
    var first := Needed(prefix, blocks, keep, None, target, 0);
    var told := BuildSummary(summarizer, 0, Taken(old_, first));
    if told.None? then Compaction(first, None)
    else if Fits(prefix, Assemble(Kept(blocks, keep, first), told), target) then Compaction(first, told)
    else
      var second := Needed(prefix, blocks, keep, told, target, first);
      var retold := BuildSummary(summarizer, 1, Taken(old_, second));
      if retold.Some? && Fits(prefix, Assemble(Kept(blocks, keep, second), retold), target)
      then Compaction(second, retold)
      else Compaction(second, None)
  }

  function Result(blocks: seq<Block>, keep: nat, compaction: Compaction): seq<Block> {
    Assemble(Kept(blocks, keep, compaction.count), compaction.summary)
  }

  method Compact(prefix: Prefix, blocks: seq<Block>, summarizer: Option<Summarizer>, keep: nat, target: int)
    returns (compacted: seq<Block>)
    ensures compacted == Result(blocks, keep, Compacted(prefix, blocks, summarizer, keep, target))
  {
    var kept, dropped := blocks, [];
    var summary: Option<Block> := None;
    assert Kept(blocks, keep, 0) == blocks;
    var round := 0;
    while round < MAX_COMPACTION_ROUNDS
      invariant 0 <= round <= MAX_COMPACTION_ROUNDS
      invariant Dropping(blocks, keep, kept, dropped)
      invariant round == 0 ==> summary.None? && dropped == []
      invariant round > 0 ==> summary.Some? && summarizer.Some? && !Fits(prefix, Assemble(kept, summary), target)
      invariant round == 1 ==>
        && |dropped| == Needed(prefix, blocks, keep, None, target, 0)
        && summary == BuildSummary(summarizer, 0, dropped)
      invariant round == 2 ==> Compacted(prefix, blocks, summarizer, keep, target) == Compaction(|dropped|, None)
    {
      kept, dropped := DropUntilItFits(prefix, blocks, kept, dropped, summary, keep, target);
      if summarizer.None? || |dropped| == 0 {
        break;
      }
      summary := BuildSummary(summarizer, round, dropped);
      if summary.None? {
        break;
      }
      if Fits(prefix, Assemble(kept, summary), target) {
        break;
      }
      round := round + 1;
    }
    if summary.None? {
      return Assemble(kept, summary);
    }
    compacted := if Fits(prefix, Assemble(kept, summary), target) then Assemble(kept, summary) else Assemble(kept, None);
  }

  // ---------------------------------------------------------------- what it promises

  /**
   * Whatever the summarizer says: the blocks that fall are the first removable ones outside the
   * protected tail, everything else stays in its order, and the result either meets the target or
   * has nothing left to drop. A summary is only ever kept when it fits.
   */
  lemma {:induction false} CompactionMeetsItsTarget(
    prefix: Prefix, blocks: seq<Block>, summarizer: Option<Summarizer>, keep: nat, target: int)
    ensures var compaction := Compacted(prefix, blocks, summarizer, keep, target);
      var result := Result(blocks, keep, compaction);
      && compaction.count <= Removables(Old(blocks, keep))
      && (Fits(prefix, result, target) || compaction.count == Removables(Old(blocks, keep)))
      && (compaction.summary.Some? ==>
            && Fits(prefix, result, target)
            && compaction.count > 0
            && compaction.summary.value.firstRevision == Taken(Old(blocks, keep), compaction.count)[0].firstRevision)
  {
    var old_ := Old(blocks, keep);
    var first := Needed(prefix, blocks, keep, None, target, 0);
    DroppingCounts(old_, first);
    NeededIsLeast(prefix, blocks, keep, None, target, 0);
    var told := BuildSummary(summarizer, 0, Taken(old_, first));
    if told.Some? && !Fits(prefix, Assemble(Kept(blocks, keep, first), told), target) {
      var second := Needed(prefix, blocks, keep, told, target, first);
      DroppingCounts(old_, second);
      NeededIsLeast(prefix, blocks, keep, told, target, first);
      KeepingLessMeasuresLess(prefix, blocks, keep, first, second);
    }
  }

  // ---------------------------------------------------------------- the same, by what blocks say of themselves

  /** The blocks of a list that are closed and not pinned. */
  ghost function Free(blocks: seq<Block>): seq<Block> {
    if blocks == [] then []
    else (if blocks[0].closed && !blocks[0].pinned then [blocks[0]] else []) + Free(blocks[1..])
  }

  /** The blocks of a list that are open or pinned. */
  ghost function Bound(blocks: seq<Block>): seq<Block> {
    if blocks == [] then []
    else (if blocks[0].closed && !blocks[0].pinned then [] else [blocks[0]]) + Bound(blocks[1..])
  }

  /** How far into a list the first `k` closed and unpinned blocks reach. */
  ghost function Reach(blocks: seq<Block>, k: nat): (cut: nat)
    requires k <= Removables(blocks)
    ensures cut <= |blocks|
  {
    if k == 0 then 0
    else 1 + Reach(blocks[1..], if blocks[0].closed && !blocks[0].pinned then k - 1 else k)
  }

  lemma {:induction false} DroppedInFront(blocks: seq<Block>, k: nat)
    requires k <= Removables(blocks)
    ensures |Free(blocks[..Reach(blocks, k)])| == k
    ensures Taken(blocks, k) == Free(blocks[..Reach(blocks, k)])
  {
    if k > 0 {
      var rest, fewer := blocks[1..], if blocks[0].closed && !blocks[0].pinned then k - 1 else k;
      DroppedInFront(rest, fewer);
      var front := blocks[..Reach(blocks, k)];
      assert front[0] == blocks[0] && front[1..] == rest[..Reach(rest, fewer)];
    }
  }

  lemma {:induction false} LeftBehind(blocks: seq<Block>, k: nat)
    requires k <= Removables(blocks)
    ensures Without(blocks, k) == Bound(blocks[..Reach(blocks, k)]) + blocks[Reach(blocks, k)..]
  {
    if k > 0 {
      var rest, fewer := blocks[1..], if blocks[0].closed && !blocks[0].pinned then k - 1 else k;
      LeftBehind(rest, fewer);
      BoundBehind(blocks, rest, Reach(rest, fewer), Without(rest, fewer));
    }
  }

  lemma {:induction false} BoundBehind(blocks: seq<Block>, rest: seq<Block>, cut: nat, left: seq<Block>)
    requires blocks != [] && rest == blocks[1..] && cut <= |rest|
    requires left == Bound(rest[..cut]) + rest[cut..]
    ensures var free := blocks[0].closed && !blocks[0].pinned;
      Bound(blocks[..cut + 1]) + blocks[cut + 1..] == if free then left else [blocks[0]] + left
  {
    var front, spared := blocks[..cut + 1], Bound(rest[..cut]);
    assert front[0] == blocks[0] && front[1..] == rest[..cut];
    assert blocks[cut + 1..] == rest[cut..];
    Associate(blocks[0], spared, rest[cut..]);
  }

  lemma {:induction false} Associate(first: Block, middle: seq<Block>, last: seq<Block>)
    ensures ([first] + middle) + last == [first] + (middle + last)
    ensures [] + middle == middle
  {
  }

  /** The cut lies right behind the last block that fell, and behind it are those that might still fall. */
  lemma {:induction false} CutsClosely(blocks: seq<Block>, k: nat)
    requires k <= Removables(blocks)
    ensures var cut := Reach(blocks, k);
      && (cut > 0 ==> blocks[cut - 1].closed && !blocks[cut - 1].pinned)
      && (k == Removables(blocks) ==> Free(blocks[cut..]) == [])
  {
    if k == 0 {
      NoneIsFree(blocks);
    } else {
      var rest, fewer := blocks[1..], if blocks[0].closed && !blocks[0].pinned then k - 1 else k;
      CutsClosely(rest, fewer);
      assert blocks[Reach(blocks, k)..] == rest[Reach(rest, fewer)..];
    }
  }

  lemma {:induction false} NoneIsFree(blocks: seq<Block>)
    ensures Removables(blocks) == 0 ==> Free(blocks) == []
  {
    if blocks != [] {
      NoneIsFree(blocks[1..]);
    }
  }

  /**
   * Whatever the summarizer says, a compaction cuts what is not protected: in front of the cut, which no
   * smaller number of blocks reaches, every closed and unpinned block fell and every other one stayed; and
   * when the target is missed, no closed and unpinned block is left behind the cut either.
   */
  lemma {:induction false} CompactionCuts(
    prefix: Prefix, blocks: seq<Block>, summarizer: Option<Summarizer>, keep: nat, target: int) returns (cut: nat)
    ensures var unprotected := if |blocks| <= keep then 0 else |blocks| - keep;
      var compaction := Compacted(prefix, blocks, summarizer, keep, target);
      var result := Result(blocks, keep, compaction);
      && cut <= unprotected
      && result == Assemble(Bound(blocks[..cut]) + blocks[cut..], compaction.summary)
      && compaction.count == |Free(blocks[..cut])|
      && (cut > 0 ==> blocks[cut - 1].closed && !blocks[cut - 1].pinned)
      && (!Fits(prefix, result, target) ==>
            forall i :: cut <= i < unprotected ==> !blocks[i].closed || blocks[i].pinned)
  {
    var compaction := Compacted(prefix, blocks, summarizer, keep, target);
    CompactionMeetsItsTarget(prefix, blocks, summarizer, keep, target);
    cut := KeptCuts(blocks, keep, compaction.count);
  }

  lemma {:induction false} KeptCuts(blocks: seq<Block>, keep: nat, k: nat) returns (cut: nat)
    requires k <= Removables(Old(blocks, keep))
    ensures var unprotected := if |blocks| <= keep then 0 else |blocks| - keep;
      && cut <= unprotected
      && Kept(blocks, keep, k) == Bound(blocks[..cut]) + blocks[cut..]
      && k == |Free(blocks[..cut])|
      && (cut > 0 ==> blocks[cut - 1].closed && !blocks[cut - 1].pinned)
      && (k == Removables(Old(blocks, keep)) ==>
            forall i :: cut <= i < unprotected ==> !blocks[i].closed || blocks[i].pinned)
  {
    var front, recent := Old(blocks, keep), Recent(blocks, keep);
    assert blocks == front + recent;
    cut := Reach(front, k);
    CutsApart(blocks, front, recent, k, cut);
  }

  lemma {:induction false} CutsApart(blocks: seq<Block>, front: seq<Block>, recent: seq<Block>, k: nat, cut: nat)
    requires blocks == front + recent && k <= Removables(front) && cut == Reach(front, k)
    ensures Without(front, k) + recent == Bound(blocks[..cut]) + blocks[cut..]
    ensures k == |Free(blocks[..cut])|
    ensures cut > 0 ==> blocks[cut - 1].closed && !blocks[cut - 1].pinned
    ensures k == Removables(front) ==> forall i :: cut <= i < |front| ==> !blocks[i].closed || blocks[i].pinned
  {
    DroppedInFront(front, k);
    LeftBehind(front, k);
    CutsClosely(front, k);
    CutInFront(blocks, front, recent, cut);
    assert cut > 0 ==> blocks[cut - 1] == front[cut - 1];
    NoneFreeBehind(blocks, front, cut);
  }

  lemma {:induction false} NoneFreeBehind(blocks: seq<Block>, front: seq<Block>, cut: nat)
    requires cut <= |front| && front <= blocks
    ensures Free(front[cut..]) == [] ==> forall i :: cut <= i < |front| ==> !blocks[i].closed || blocks[i].pinned
  {
    forall i | cut <= i < |front|
      ensures Free(front[cut..]) == [] ==> !blocks[i].closed || blocks[i].pinned
    {
      FreeHolds(front[cut..], i - cut);
      assert front[cut..][i - cut] == blocks[i];
    }
  }

  lemma {:induction false} CutInFront(blocks: seq<Block>, front: seq<Block>, recent: seq<Block>, cut: nat)
    requires blocks == front + recent && cut <= |front|
    ensures front[..cut] == blocks[..cut]
    ensures Bound(front[..cut]) + front[cut..] + recent == Bound(blocks[..cut]) + blocks[cut..]
  {
    assert front[..cut] == blocks[..cut];
    assert blocks[cut..] == front[cut..] + recent;
  }

  lemma {:induction false} FreeHolds(blocks: seq<Block>, i: nat)
    requires i < |blocks|
    ensures blocks[i].closed && !blocks[i].pinned ==> Free(blocks) != []
  {
    if i > 0 {
      FreeHolds(blocks[1..], i - 1);
    }
  }

  /**
   * A summary that stays is what the summarizer answered for exactly the blocks that fell: in its first
   * round when that answer fits beside the rest, and otherwise in its second.
   */
  lemma {:induction false} SummaryStandsForTheFallen(
    prefix: Prefix, blocks: seq<Block>, summarizer: Option<Summarizer>, keep: nat, target: int)
    requires Compacted(prefix, blocks, summarizer, keep, target).summary.Some?
    ensures var compaction := Compacted(prefix, blocks, summarizer, keep, target);
      var summary, fallen := compaction.summary.value, Taken(Old(blocks, keep), compaction.count);
      && summarizer.Some? && |fallen| > 0 && |summary.messages| == 1 && summary.messages[0].UserMessage?
      && (var text := summary.messages[0].text;
          var plain := Compacted(prefix, blocks, None, keep, target).count;
          var first := BuildSummary(summarizer, 0, Taken(Old(blocks, keep), plain));
          var round := if Fits(prefix, Assemble(Kept(blocks, keep, plain), first), target) then 0 else 1;
          && first.Some? && summarizer.value(round, fallen) == Some(text) && (round == 0 ==> compaction.count == plain)
          && summary.messages[0].media == [] && (exists i :: 0 <= i < |text| && !IsSpace(text[i])))
      && summary.category == Summaries && summary.closed && !summary.pinned && summary.callId == None
      && summary.firstRevision == summary.lastRevision == fallen[0].firstRevision
  {
    var first := Needed(prefix, blocks, keep, None, target, 0);
    DroppingCounts(Old(blocks, keep), first);
    var told := BuildSummary(summarizer, 0, Taken(Old(blocks, keep), first));
    if told.Some? && !Fits(prefix, Assemble(Kept(blocks, keep, first), told), target) {
      DroppingCounts(Old(blocks, keep), Needed(prefix, blocks, keep, told, target, first));
    }
  }

  /** Without a summarizer, no smaller number of blocks would have met the target. */
  lemma {:induction false} NothingFallsInVain(prefix: Prefix, blocks: seq<Block>, keep: nat, target: int, fewer: nat)
    requires fewer < Compacted(prefix, blocks, None, keep, target).count
    ensures !Fits(prefix, Kept(blocks, keep, fewer), target)
  {
    NeededIsLeast(prefix, blocks, keep, None, target, 0);
    assert !Enough(prefix, blocks, keep, None, target, fewer);
  }

  /** With one, blocks beyond those only fall to make room for what it said of those. */
  lemma {:induction false} OnlyTheSummaryCostsMore(
    prefix: Prefix, blocks: seq<Block>, summarizer: Summarizer, keep: nat, target: int, fewer: nat)
    requires var plain := Compacted(prefix, blocks, None, keep, target).count;
      plain <= fewer < Compacted(prefix, blocks, Some(summarizer), keep, target).count
    ensures var plain := Compacted(prefix, blocks, None, keep, target).count;
      var told := BuildSummary(Some(summarizer), 0, Taken(Old(blocks, keep), plain));
      told.Some? && !Enough(prefix, blocks, keep, told, target, fewer)
  {
    var plain := Compacted(prefix, blocks, None, keep, target).count;
    var told := BuildSummary(Some(summarizer), 0, Taken(Old(blocks, keep), plain));
    NeededIsLeast(prefix, blocks, keep, told, target, plain);
  }

  lemma {:induction false} ObligationsOfBoth(first: seq<Block>, second: seq<Block>)
    ensures Obligations(first + second) == Obligations(first) + Obligations(second)
  {
    if first == [] {
      assert first + second == second;
    } else {
      assert (first + second)[1..] == first[1..] + second;
      ObligationsOfBoth(first[1..], second);
    }
  }

  /** Open and pinned blocks all survive in order, the recent blocks are the end of the result, and nothing is made up. */
  lemma {:induction false} CompactionConserves(
    prefix: Prefix, blocks: seq<Block>, summarizer: Option<Summarizer>, keep: nat, target: int)
    ensures var compaction := Compacted(prefix, blocks, summarizer, keep, target);
      var kept := Kept(blocks, keep, compaction.count);
      var dropped := Taken(Old(blocks, keep), compaction.count);
      && Result(blocks, keep, compaction) == Assemble(kept, compaction.summary)
      && multiset(kept) + multiset(dropped) == multiset(blocks)
      && Obligations(kept) == Obligations(blocks)
      && (forall block :: block in dropped ==> block.closed && !block.pinned)
      && kept == Without(Old(blocks, keep), compaction.count) + Recent(blocks, keep)
  {
    CompactionMeetsItsTarget(prefix, blocks, summarizer, keep, target);
    KeptConserves(blocks, keep, Compacted(prefix, blocks, summarizer, keep, target).count);
  }

  lemma {:induction false} KeptConserves(blocks: seq<Block>, keep: nat, count: nat)
    requires count <= Removables(Old(blocks, keep))
    ensures multiset(Kept(blocks, keep, count)) + multiset(Taken(Old(blocks, keep), count)) == multiset(blocks)
    ensures Obligations(Kept(blocks, keep, count)) == Obligations(blocks)
    ensures forall block :: block in Taken(Old(blocks, keep), count) ==> block.IsRemovable()
  {
    var old_, recent := Old(blocks, keep), Recent(blocks, keep);
    assert blocks == old_ + recent;
    DroppingCounts(old_, count);
    assert Obligations(Kept(blocks, keep, count)) == Obligations(blocks) by {
      DroppingSparesObligations(old_, count);
      ObligationsOfBoth(old_, recent);
      ObligationsOfBoth(Without(old_, count), recent);
    }
    DroppingConserves(old_, count);
    assert multiset(Kept(blocks, keep, count)) == multiset(Without(old_, count)) + multiset(recent);
    assert multiset(blocks) == multiset(old_) + multiset(recent);
  }
}
