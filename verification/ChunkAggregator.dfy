/**
 * Putting a streamed answer together again: fragments merged per call
 * (packages/core/src/runtime/model/model-chunk-aggregator.service.ts, partial-tool-call.value-object.ts).
 */
module ChunkAggregators {
  import opened Options
  import opened Decimals

  datatype Delta = Delta(
    index: int,
    arguments: string,
    callId: Option<string>,
    toolName: Option<string>,
    signature: Option<string>)

  datatype Usage = Usage(input: nat, output: nat, cached: nat)

  datatype Chunk = Chunk(text: string, toolCall: Option<Delta>, usage: Option<Usage>, finishReason: Option<string>)

  datatype Partial = Partial(
    arguments: string,
    callId: Option<string>,
    toolName: Option<string>,
    signature: Option<string>)

  const NO_PARTIAL := Partial("", None, None, None)

  function OrElse<T>(first: Option<T>, second: Option<T>): Option<T> {
    if first.Some? then first else second
  }

  function With(partial: Partial, delta: Delta): Partial {
    Partial(partial.arguments + delta.arguments,
            OrElse(delta.callId, partial.callId),
            OrElse(delta.toolName, partial.toolName),
            OrElse(delta.signature, partial.signature))
  }

  // ---------------------------------------------------------------- one chunk after the other

  datatype State = State(
    text: seq<string>,
    calls: map<int, Partial>,
    usage: Usage,
    finishReason: Option<string>)

  const NOTHING := State([], map[], Usage(0, 0, 0), None)

  function Merging(calls: map<int, Partial>, delta: Delta): map<int, Partial> {
    var partial := if delta.index in calls then calls[delta.index] else NO_PARTIAL;
    calls[delta.index := With(partial, delta)]
  }

  function Step(state: State, chunk: Chunk): State {
    State(
      if chunk.text != "" then state.text + [chunk.text] else state.text,
      if chunk.toolCall.None? then state.calls
      else Merging(state.calls, chunk.toolCall.value),
      if chunk.usage.Some? then chunk.usage.value else state.usage,
      OrElse(chunk.finishReason, state.finishReason))
  }

  function Accepted(chunks: seq<Chunk>): State
    decreases |chunks|
  {
    if chunks == [] then NOTHING else Step(Accepted(chunks[..|chunks| - 1]), chunks[|chunks| - 1])
  }

  // ---------------------------------------------------------------- what a stream says, index by index

  /** The fragments of a stream, in the order they came. */
  function Deltas(chunks: seq<Chunk>): seq<Delta>
    decreases |chunks|
  {
    if chunks == [] then []
    else
      var last := chunks[|chunks| - 1];
      Deltas(chunks[..|chunks| - 1]) + if last.toolCall.Some? then [last.toolCall.value] else []
  }

  /** The fragments of one call. */
  function Of(deltas: seq<Delta>, index: int): seq<Delta>
    decreases |deltas|
  {
    if deltas == [] then []
    else
      var last := deltas[|deltas| - 1];
      Of(deltas[..|deltas| - 1], index) + if last.index == index then [last] else []
  }

  /** All the arguments there are of a call, and the latest word on everything else. */
  function Merged(deltas: seq<Delta>): Partial
    decreases |deltas|
  {
    if deltas == [] then NO_PARTIAL
    else
      var before, last := Merged(deltas[..|deltas| - 1]), deltas[|deltas| - 1];
      With(before, last)
  }

  function Concatenation(texts: seq<string>): string
    decreases |texts|
  {
    if texts == [] then "" else Concatenation(texts[..|texts| - 1]) + texts[|texts| - 1]
  }

  /** The text of a stream, empty fragments and all. */
  function TextOf(chunks: seq<Chunk>): string
    decreases |chunks|
  {
    if chunks == [] then "" else TextOf(chunks[..|chunks| - 1]) + chunks[|chunks| - 1].text
  }

  ghost predicate IsOwn(calls: map<int, Partial>, deltas: seq<Delta>, index: int) {
    if Of(deltas, index) == [] then index !in calls
    else index in calls && calls[index] == Merged(Of(deltas, index))
  }

  lemma {:induction false} OneDeltaMore(deltas: seq<Delta>, delta: Delta, index: int)
    ensures delta.index != index ==> Of(deltas + [delta], index) == Of(deltas, index)
    ensures delta.index == index ==> Of(deltas + [delta], index) == Of(deltas, index) + [delta]
    ensures delta.index == index ==> Merged(Of(deltas + [delta], index)) == With(Merged(Of(deltas, index)), delta)
  {
    assert (deltas + [delta])[..|deltas|] == deltas;
    if delta.index == index {
      var own := Of(deltas, index);
      assert (own + [delta])[..|own|] == own;
    } else {
      assert Of(deltas, index) + [] == Of(deltas, index);
    }
  }

  lemma {:induction false} MergingKeepsOwn(calls: map<int, Partial>, delta: Delta, deltas: seq<Delta>, index: int)
    requires IsOwn(calls, deltas, index)
    ensures IsOwn(Merging(calls, delta), deltas + [delta], index)
  {
    OneDeltaMore(deltas, delta, index);
  }

  /** Each call is its own fragments merged, whatever came between them. */
  lemma {:induction false} AcceptedIsPerIndex(chunks: seq<Chunk>, index: int)
    ensures IsOwn(Accepted(chunks).calls, Deltas(chunks), index)
    decreases |chunks|
  {
    if chunks != [] {
      var front, last := chunks[..|chunks| - 1], chunks[|chunks| - 1];
      AcceptedIsPerIndex(front, index);
      if last.toolCall.Some? {
        MergingKeepsOwn(Accepted(front).calls, last.toolCall.value, Deltas(front), index);
      } else {
        assert Deltas(chunks) == Deltas(front);
      }
    }
  }

  function ArgumentsOf(deltas: seq<Delta>): seq<string>
    ensures |ArgumentsOf(deltas)| == |deltas|
  {
    seq(|deltas|, k requires 0 <= k < |deltas| => deltas[k].arguments)
  }

  /** The last of some values that was said at all. */
  ghost predicate IsLatest(deltas: seq<Delta>, said: Delta -> Option<string>, latest: Option<string>) {
    if latest.None? then forall k :: 0 <= k < |deltas| ==> said(deltas[k]).None?
    else exists k :: 0 <= k < |deltas| && said(deltas[k]) == latest
           && forall later :: k < later < |deltas| ==> said(deltas[later]).None?
  }

  lemma {:induction false} LatestGoesOn(deltas: seq<Delta>, said: Delta -> Option<string>, latest: Option<string>, delta: Delta)
    requires IsLatest(deltas, said, latest)
    ensures IsLatest(deltas + [delta], said, OrElse(said(delta), latest))
  {
    var more := deltas + [delta];
    if said(delta).Some? {
      assert said(more[|deltas|]) == said(delta);
    } else if latest.Some? {
      var k :| 0 <= k < |deltas| && said(deltas[k]) == latest
        && forall later :: k < later < |deltas| ==> said(deltas[later]).None?;
      assert said(more[k]) == latest;
    }
  }

  /** Merging loses no fragment of the arguments, and the latest word on the rest stands. */
  lemma {:induction false} MergedIsWholeAndLatest(deltas: seq<Delta>)
    ensures Merged(deltas).arguments == Concatenation(ArgumentsOf(deltas))
    ensures IsLatest(deltas, (delta: Delta) => delta.callId, Merged(deltas).callId)
    ensures IsLatest(deltas, (delta: Delta) => delta.toolName, Merged(deltas).toolName)
    ensures IsLatest(deltas, (delta: Delta) => delta.signature, Merged(deltas).signature)
    decreases |deltas|
  {
    if deltas != [] {
      var front, last := deltas[..|deltas| - 1], deltas[|deltas| - 1];
      MergedIsWholeAndLatest(front);
      assert front + [last] == deltas;
      assert ArgumentsOf(deltas)[..|front|] == ArgumentsOf(front);
      LatestGoesOn(front, (delta: Delta) => delta.callId, Merged(front).callId, last);
      LatestGoesOn(front, (delta: Delta) => delta.toolName, Merged(front).toolName, last);
      LatestGoesOn(front, (delta: Delta) => delta.signature, Merged(front).signature, last);
    }
  }

  lemma {:induction false} AcceptedTextIsWhole(chunks: seq<Chunk>)
    ensures Concatenation(Accepted(chunks).text) == TextOf(chunks)
    decreases |chunks|
  {
    if chunks != [] {
      var front, last := chunks[..|chunks| - 1], chunks[|chunks| - 1].text;
      AcceptedTextIsWhole(front);
      var before := Accepted(front).text;
      assert (before + [last])[..|before|] == before;
    }
  }

  // ---------------------------------------------------------------- the answer

  type Arguments = string

  datatype ToolCall = ToolCall(callId: string, name: string, arguments: Arguments, signature: Option<string>)

  datatype Malformed = NeverNamed(index: int) | NotArguments(name: string, text: string)

  datatype Result<T> = Ok(value: T) | Err(error: Malformed)

  /** `parse` reads arguments: a blank text is none at all, and anything but a record is refused. */
  function BuildToolCall(parse: string -> Option<Arguments>, partial: Partial, index: int): Result<ToolCall> {
    match partial.toolName
    case None => Err(NeverNamed(index))
    case Some(name) =>
      match parse(partial.arguments)
      case None => Err(NotArguments(name, partial.arguments))
      case Some(arguments) =>
        var callId := if partial.callId.Some? then partial.callId.value else "call-" + Written(index);
        Ok(ToolCall(callId, name, arguments, partial.signature))
  }

  /** The calls in the order given, or the first of them that is malformed. */
  function Build(parse: string -> Option<Arguments>, calls: map<int, Partial>, order: seq<int>): Result<seq<ToolCall>>
    requires forall k :: 0 <= k < |order| ==> order[k] in calls
    decreases |order|
  {
    if order == [] then Ok([])
    else
      var last := order[|order| - 1];
      match Build(parse, calls, order[..|order| - 1])
      case Err(error) => Err(error)
      case Ok(before) =>
        match BuildToolCall(parse, calls[last], last)
        case Err(error) => Err(error)
        case Ok(call) => Ok(before + [call])
  }

  /** A call is its fragments' own name, arguments, signature and id; without an id its index makes one. */
  ghost predicate Carries(parse: string -> Option<Arguments>, partial: Partial, index: int, call: ToolCall) {
    && partial.toolName == Some(call.name)
    && parse(partial.arguments) == Some(call.arguments)
    && call.signature == partial.signature
    && call.callId == (if partial.callId.Some? then partial.callId.value else "call-" + Written(index))
  }

  ghost predicate IsMalformed(parse: string -> Option<Arguments>, partial: Partial, index: int, error: Malformed) {
    match error
    case NeverNamed(at) => at == index && partial.toolName.None?
    case NotArguments(name, text) =>
      partial.toolName == Some(name) && text == partial.arguments && parse(text).None?
  }

  ghost predicate AllCarry(parse: string -> Option<Arguments>, calls: map<int, Partial>, order: seq<int>, built: seq<ToolCall>)
  {
    && |built| == |order|
    && forall k :: 0 <= k < |order| ==> order[k] in calls && Carries(parse, calls[order[k]], order[k], built[k])
  }

  ghost predicate IsFine(parse: string -> Option<Arguments>, partial: Partial) {
    partial.toolName.Some? && parse(partial.arguments).Some?
  }

  /** What is wrong with the first call that something is wrong with. */
  ghost predicate FailsFirst(
    parse: string -> Option<Arguments>, calls: map<int, Partial>, order: seq<int>, k: int, error: Malformed)
    requires forall i :: 0 <= i < |order| ==> order[i] in calls
  {
    && 0 <= k < |order| && IsMalformed(parse, calls[order[k]], order[k], error)
    && forall before :: 0 <= before < k ==> IsFine(parse, calls[order[before]])
  }

  lemma {:induction false} OneCallMore(parse: string -> Option<Arguments>, calls: map<int, Partial>, order: seq<int>)
    requires order != [] && forall k :: 0 <= k < |order| ==> order[k] in calls
    ensures var last := order[|order| - 1];
      match Build(parse, calls, order[..|order| - 1])
      case Err(error) => Build(parse, calls, order) == Err(error)
      case Ok(before) =>
        if Build(parse, calls, order).Ok?
        then IsFine(parse, calls[last]) && |Build(parse, calls, order).value| == |before| + 1
             && Build(parse, calls, order).value[..|before|] == before
             && Carries(parse, calls[last], last, Build(parse, calls, order).value[|before|])
        else IsMalformed(parse, calls[last], last, Build(parse, calls, order).error)
  {
  }

  /** Call by call in the order given, or what is wrong with the first call that something is wrong with. */
  lemma {:induction false} BuildCarries(parse: string -> Option<Arguments>, calls: map<int, Partial>, order: seq<int>)
    requires forall k :: 0 <= k < |order| ==> order[k] in calls
    ensures match Build(parse, calls, order)
      case Ok(built) => AllCarry(parse, calls, order, built)
      case Err(error) => exists k :: FailsFirst(parse, calls, order, k, error)
    decreases |order|
  {
    if order != [] {
      var front, result := order[..|order| - 1], Build(parse, calls, order);
      BuildCarries(parse, calls, front);
      OneCallMore(parse, calls, order);
      match Build(parse, calls, front) {
        case Ok(before) =>
          if result.Ok? {
            CarriesOneMore(parse, calls, front, before, order, result.value);
          } else {
            FailsNow(parse, calls, front, before, order, result.error);
          }
        case Err(error) =>
          var k :| FailsFirst(parse, calls, front, k, error);
          FailsLater(parse, calls, front, order, k, error);
      }
    }
  }

  lemma {:induction false} CarriesOneMore(parse: string -> Option<Arguments>, calls: map<int, Partial>,
    front: seq<int>, before: seq<ToolCall>, order: seq<int>, built: seq<ToolCall>)
    requires |order| == |front| + 1 && order[..|front|] == front && order[|front|] in calls
    requires AllCarry(parse, calls, front, before) && |built| == |before| + 1 && built[..|before|] == before
    requires Carries(parse, calls[order[|front|]], order[|front|], built[|before|])
    ensures AllCarry(parse, calls, order, built)
  {
    forall k | 0 <= k < |front|
      ensures order[k] in calls && Carries(parse, calls[order[k]], order[k], built[k])
    {
      assert front[k] == order[k] && before[k] == built[k];
    }
  }

  lemma {:induction false} FailsNow(parse: string -> Option<Arguments>, calls: map<int, Partial>,
    front: seq<int>, before: seq<ToolCall>, order: seq<int>, error: Malformed)
    requires |order| == |front| + 1 && order[..|front|] == front
    requires forall k :: 0 <= k < |order| ==> order[k] in calls
    requires AllCarry(parse, calls, front, before)
    requires IsMalformed(parse, calls[order[|front|]], order[|front|], error)
    ensures FailsFirst(parse, calls, order, |front|, error)
  {
    forall k | 0 <= k < |front|
      ensures IsFine(parse, calls[order[k]])
    {
      assert front[k] == order[k] && Carries(parse, calls[front[k]], front[k], before[k]);
    }
  }

  lemma {:induction false} FailsLater(parse: string -> Option<Arguments>, calls: map<int, Partial>,
    front: seq<int>, order: seq<int>, k: int, error: Malformed)
    requires |front| <= |order| && order[..|front|] == front
    requires forall i :: 0 <= i < |order| ==> order[i] in calls
    requires forall i :: 0 <= i < |front| ==> front[i] in calls
    requires FailsFirst(parse, calls, front, k, error)
    ensures FailsFirst(parse, calls, order, k, error)
  {
    assert forall i :: 0 <= i < |front| ==> front[i] == order[i];
  }

  /** Ids made up for different calls are different. */
  lemma {:induction false} MadeUpIdsAreApart(index: int, other: int)
    ensures "call-" + Written(index) == "call-" + Written(other) ==> index == other
  {
    WrittenApart(index, other);
    assert ("call-" + Written(index))[5..] == Written(index) && ("call-" + Written(other))[5..] == Written(other);
  }

  ghost predicate IsAscending(order: seq<int>, keys: set<int>) {
    && (forall k :: 0 <= k < |order| ==> order[k] in keys)
    && (forall key :: key in keys ==> key in order)
    && forall i, j :: 0 <= i < j < |order| ==> order[i] < order[j]
  }

  lemma {:induction false} LeastExists(keys: set<int>) returns (least: int)
    requires keys != {}
    ensures least in keys && forall key :: key in keys ==> least <= key
    decreases |keys|
  {
    assert (forall key :: key !in keys) ==> keys == {};
    var some :| some in keys;
    least := some;
    var rest := keys - {some};
    if rest != {} {
      var other := LeastExists(rest);
      if other < some {
        least := other;
      }
    }
    assert forall key :: key in keys ==> key == some || key in rest;
  }

  method Sort(keys: set<int>) returns (order: seq<int>)
    ensures IsAscending(order, keys)
  {
    order := [];
    var rest := keys;
    while rest != {}
      invariant rest <= keys
      invariant forall key :: key in keys <==> key in rest || key in order
      invariant forall i, j :: 0 <= i < j < |order| ==> order[i] < order[j]
      invariant forall k, key :: 0 <= k < |order| && key in rest ==> order[k] < key
      decreases |rest|
    {
      ghost var some := LeastExists(rest);
      var least :| least in rest && forall key :: key in rest ==> least <= key;
      order := order + [least];
      rest := rest - {least};
    }
  }

  /** Only one order is ascending. */
  lemma {:induction false} AscendingIsUnique(some: seq<int>, other: seq<int>, keys: set<int>)
    requires IsAscending(some, keys) && IsAscending(other, keys)
    ensures some == other
    decreases |keys|
  {
    NoKeysNoOrder(some, keys);
    NoKeysNoOrder(other, keys);
    if keys != {} {
      var least := LeastExists(keys);
      assert some[0] == least by { FirstIsLeast(some, keys, least); }
      assert other[0] == least by { FirstIsLeast(other, keys, least); }
      RestIsAscending(some, keys);
      RestIsAscending(other, keys);
      AscendingIsUnique(some[1..], other[1..], keys - {least});
    }
  }

  lemma {:induction false} NoKeysNoOrder(order: seq<int>, keys: set<int>)
    requires IsAscending(order, keys)
    ensures order == [] <==> keys == {}
  {
    if order != [] {
      assert order[0] in keys;
    }
    assert (forall key :: key !in keys) ==> keys == {};
    assert order == [] ==> forall key :: key in keys ==> key in order;
  }

  lemma {:induction false} FirstIsLeast(order: seq<int>, keys: set<int>, least: int)
    requires IsAscending(order, keys) && least in keys && forall key :: key in keys ==> least <= key
    ensures order != [] && order[0] == least
  {
    var at :| 0 <= at < |order| && order[at] == least;
    assert order[0] in keys;
  }

  lemma {:induction false} RestIsAscending(order: seq<int>, keys: set<int>)
    requires IsAscending(order, keys) && order != []
    ensures IsAscending(order[1..], keys - {order[0]})
  {
    forall key | key in keys - {order[0]}
      ensures key in order[1..]
    {
      var at :| 0 <= at < |order| && order[at] == key;
      assert order[1..][at - 1] == key;
    }
  }

  class ModelChunkAggregator {
    var text: seq<string>
    var calls: map<int, Partial>
    var usage: Usage
    var finishReason: Option<string>

    function Current(): State
      reads this
    {
      State(text, calls, usage, finishReason)
    }

    constructor ()
      ensures Current() == Accepted([])
    {
      text, calls, usage, finishReason := [], map[], Usage(0, 0, 0), None;
    }

    method Accept(chunk: Chunk, ghost before: seq<Chunk>)
      requires Current() == Accepted(before)
      modifies this
      ensures Current() == Step(old(Current()), chunk) == Accepted(before + [chunk])
    {
      assert (before + [chunk])[..|before|] == before;
      if chunk.text != "" {
        text := text + [chunk.text];
      }
      if chunk.usage.Some? {
        usage := chunk.usage.value;
      }
      if chunk.finishReason.Some? {
        finishReason := chunk.finishReason;
      }
      if chunk.toolCall.None? {
        return;
      }
      var delta := chunk.toolCall.value;
      var partial := if delta.index in calls then calls[delta.index] else NO_PARTIAL;
      calls := calls[delta.index := With(partial, delta)];
    }

    method ToolCalls(parse: string -> Option<Arguments>) returns (built: Result<seq<ToolCall>>)
      ensures exists order :: IsAscending(order, calls.Keys) && built == Build(parse, calls, order)
    {
      var sorted := Sort(calls.Keys);
      var list: seq<ToolCall> := [];
      for at := 0 to |sorted|
        invariant Build(parse, calls, sorted[..at]) == Ok(list)
      {
        assert sorted[..at + 1][..at] == sorted[..at];
        var call := BuildToolCall(parse, calls[sorted[at]], sorted[at]);
        if call.Err? {
          BuildStaysMalformed(parse, calls, sorted, at + 1);
          return Err(call.error);
        }
        list := list + [call.value];
      }
      assert sorted[..|sorted|] == sorted;
      built := Ok(list);
    }
  }

  lemma {:induction false} BuildStaysMalformed(parse: string -> Option<Arguments>, calls: map<int, Partial>, order: seq<int>, at: nat)
    requires forall k :: 0 <= k < |order| ==> order[k] in calls
    requires at <= |order| && Build(parse, calls, order[..at]).Err?
    ensures Build(parse, calls, order) == Build(parse, calls, order[..at])
    decreases |order|
  {
    if at == |order| {
      assert order[..at] == order;
    } else {
      assert order[..|order| - 1][..at] == order[..at];
      BuildStaysMalformed(parse, calls, order[..|order| - 1], at);
    }
  }

  /** Fragments of different calls, text, usage and the end may come in any interleaving. */
  lemma {:induction false} InterleavingDoesNotMatter(some: seq<Chunk>, other: seq<Chunk>)
    requires forall index :: Of(Deltas(some), index) == Of(Deltas(other), index)
    requires TextOf(some) == TextOf(other)
    ensures Accepted(some).calls == Accepted(other).calls
    ensures Concatenation(Accepted(some).text) == Concatenation(Accepted(other).text)
  {
    AcceptedTextIsWhole(some);
    AcceptedTextIsWhole(other);
    forall index
      ensures IsOwn(Accepted(some).calls, Deltas(some), index) && IsOwn(Accepted(other).calls, Deltas(other), index)
    {
      AcceptedIsPerIndex(some, index);
      AcceptedIsPerIndex(other, index);
    }
    SameCalls(Accepted(some).calls, Accepted(other).calls, Deltas(some), Deltas(other));
  }

  lemma {:induction false} SameCalls(
    calls: map<int, Partial>, others: map<int, Partial>, deltas: seq<Delta>, otherDeltas: seq<Delta>)
    requires forall index :: IsOwn(calls, deltas, index)
    requires forall index :: IsOwn(others, otherDeltas, index)
    requires forall index :: Of(deltas, index) == Of(otherDeltas, index)
    ensures calls == others
  {
    forall index
      ensures index in calls <==> index in others
      ensures index in calls ==> calls[index] == others[index]
    {
      assert IsOwn(calls, deltas, index) && IsOwn(others, otherDeltas, index);
    }
    assert calls.Keys == others.Keys;
  }

  ghost predicate LastUsage(chunks: seq<Chunk>, usage: Usage) {
    if forall k :: 0 <= k < |chunks| ==> chunks[k].usage.None? then usage == Usage(0, 0, 0)
    else exists k :: 0 <= k < |chunks| && chunks[k].usage == Some(usage)
           && forall later :: k < later < |chunks| ==> chunks[later].usage.None?
  }

  ghost predicate LastEnd(chunks: seq<Chunk>, finishReason: Option<string>) {
    if finishReason.None? then forall k :: 0 <= k < |chunks| ==> chunks[k].finishReason.None?
    else exists k :: 0 <= k < |chunks| && chunks[k].finishReason == finishReason
           && forall later :: k < later < |chunks| ==> chunks[later].finishReason.None?
  }

  lemma {:induction false} UsageGoesOn(chunks: seq<Chunk>, usage: Usage, more: seq<Chunk>)
    requires |chunks| == |more| - 1 && chunks == more[..|chunks|] && LastUsage(chunks, usage)
    ensures var last := more[|chunks|].usage; LastUsage(more, if last.Some? then last.value else usage)
  {
    assert forall k :: 0 <= k < |chunks| ==> chunks[k] == more[k];
    assert more[|chunks|].usage.Some? ==> exists k :: 0 <= k < |more| && !more[k].usage.None?;
  }

  lemma {:induction false} EndGoesOn(chunks: seq<Chunk>, finishReason: Option<string>, more: seq<Chunk>)
    requires |chunks| == |more| - 1 && chunks == more[..|chunks|] && LastEnd(chunks, finishReason)
    ensures LastEnd(more, OrElse(more[|chunks|].finishReason, finishReason))
  {
    assert forall k :: 0 <= k < |chunks| ==> chunks[k] == more[k];
  }

  /** Whatever was said of the usage last stands, and of the end. */
  lemma {:induction false} LatestUsageStands(chunks: seq<Chunk>)
    ensures LastUsage(chunks, Accepted(chunks).usage) && LastEnd(chunks, Accepted(chunks).finishReason)
    decreases |chunks|
  {
    if chunks != [] {
      var front := chunks[..|chunks| - 1];
      LatestUsageStands(front);
      UsageGoesOn(front, Accepted(front).usage, chunks);
      EndGoesOn(front, Accepted(front).finishReason, chunks);
    }
  }
}
