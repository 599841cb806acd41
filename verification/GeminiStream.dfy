/**
 * The chunks of a Gemini stream, with the calls numbered across its raw chunks
 * (packages/google/src/mapping/gemini-stream.mapper.ts, transport/genai-transport.adapter.ts).
 */
module GeminiStreams {
  import opened Options
  import opened ChunkAggregators

  /** A function call of a raw part; `arguments` is the JSON text of what it carries. */
  datatype FunctionCall = FunctionCall(id: Option<string>, name: Option<string>, arguments: string)

  datatype SignedCall = SignedCall(call: FunctionCall, signature: Option<string>)

  datatype RawPart = RawPart(text: Option<string>, call: Option<FunctionCall>, signature: Option<string>)

  datatype RawChunk = RawChunk(parts: seq<RawPart>, usage: Option<Usage>, finish: Option<string>)

  function TextChunk(text: string): Chunk {
    Chunk(text, None, None, None)
  }

  function DeltaOf(signed: SignedCall, index: int): Delta {
    Delta(index, signed.call.arguments, signed.call.id, signed.call.name, signed.signature)
  }

  function CallChunk(signed: SignedCall, index: int): Chunk {
    Chunk("", Some(DeltaOf(signed, index)), None, None)
  }

  /** How many of some parts are calls. */
  function CallCount(parts: seq<RawPart>): nat
    decreases |parts|
  {
    if parts == [] then 0 else CallCount(parts[..|parts| - 1]) + if parts[|parts| - 1].call.Some? then 1 else 0
  }

  function PartChunks(part: RawPart, index: int): seq<Chunk> {
    (if part.text.Some? && part.text.value != "" then [TextChunk(part.text.value)] else [])
    + if part.call.Some? then [CallChunk(SignedCall(part.call.value, part.signature), index)] else []
  }

  function AllPartChunks(parts: seq<RawPart>, first: int): seq<Chunk>
    decreases |parts|
  {
    if parts == [] then []
    else
      var front := parts[..|parts| - 1];
      AllPartChunks(front, first) + PartChunks(parts[|parts| - 1], first + CallCount(front))
  }

  function Ending(raw: RawChunk): seq<Chunk> {
    (if raw.usage.Some? then [Chunk("", None, raw.usage, None)] else [])
    + if raw.finish.Some? && raw.finish.value != "" then [Chunk("", None, None, raw.finish)] else []
  }

  function RawChunks(raw: RawChunk, first: int): seq<Chunk> {
    AllPartChunks(raw.parts, first) + Ending(raw)
  }

  method ToChunks(raw: RawChunk, first: int) returns (chunks: seq<Chunk>)
    ensures chunks == RawChunks(raw, first)
  {
    chunks := [];
    var callIndex := first;
    for at := 0 to |raw.parts|
      invariant chunks == AllPartChunks(raw.parts[..at], first) && callIndex == first + CallCount(raw.parts[..at])
    {
      assert raw.parts[..at + 1][..at] == raw.parts[..at];
      ghost var before := chunks;
      var part := raw.parts[at];
      if part.text.Some? && part.text.value != "" {
        chunks := chunks + [TextChunk(part.text.value)];
      }
      ghost var index := callIndex;
      if part.call.Some? {
        chunks := chunks + [CallChunk(SignedCall(part.call.value, part.signature), callIndex)];
        callIndex := callIndex + 1;
      }
      assert chunks == before + PartChunks(part, index);
    }
    assert raw.parts[..|raw.parts|] == raw.parts;
    ghost var parts := chunks;
    if raw.usage.Some? {
      chunks := chunks + [Chunk("", None, raw.usage, None)];
    }
    if raw.finish.Some? && raw.finish.value != "" {
      chunks := chunks + [Chunk("", None, None, raw.finish)];
    }
    assert chunks == parts + Ending(raw);
  }

  // ---------------------------------------------------------------- numbering across raw chunks

  function OwnCall(part: RawPart): seq<SignedCall> {
    if part.call.Some? then [SignedCall(part.call.value, part.signature)] else []
  }

  /** All calls of some parts, in the order they arrive. */
  function Calls(parts: seq<RawPart>): seq<SignedCall>
    decreases |parts|
  {
    if parts == [] then [] else Calls(parts[..|parts| - 1]) + OwnCall(parts[|parts| - 1])
  }

  function AllParts(raws: seq<RawChunk>): seq<RawPart>
    decreases |raws|
  {
    if raws == [] then [] else AllParts(raws[..|raws| - 1]) + raws[|raws| - 1].parts
  }

  lemma {:induction false} CallsOfBoth(some: seq<RawPart>, more: seq<RawPart>)
    ensures Calls(some + more) == Calls(some) + Calls(more)
    decreases |more|
  {
    if more == [] {
      assert some + more == some;
    } else {
      assert (some + more)[..|some + more| - 1] == some + more[..|more| - 1];
      CallsOfBoth(some, more[..|more| - 1]);
    }
  }

  lemma {:induction false} CallsAreCounted(parts: seq<RawPart>)
    ensures |Calls(parts)| == CallCount(parts)
    decreases |parts|
  {
    if parts != [] {
      CallsAreCounted(parts[..|parts| - 1]);
    }
  }

  lemma {:induction false} DeltasOfBoth(some: seq<Chunk>, more: seq<Chunk>)
    ensures Deltas(some + more) == Deltas(some) + Deltas(more)
    decreases |more|
  {
    if more == [] {
      assert some + more == some;
    } else {
      assert (some + more)[..|some + more| - 1] == some + more[..|more| - 1];
      DeltasOfBoth(some, more[..|more| - 1]);
    }
  }

  /** Whole calls as fragments, numbered one after the other. */
  function Numbered(calls: seq<SignedCall>, first: int): (deltas: seq<Delta>)
    ensures |deltas| == |calls|
    decreases |calls|
  {
    if calls == [] then []
    else
      var last := |calls| - 1;
      Numbered(calls[..last], first) + [DeltaOf(calls[last], first + last)]
  }

  lemma {:induction false} NumberedBoth(calls: seq<SignedCall>, more: seq<SignedCall>, first: int)
    ensures Numbered(calls + more, first) == Numbered(calls, first) + Numbered(more, first + |calls|)
    decreases |more|
  {
    if more == [] {
      assert calls + more == calls;
    } else {
      assert (calls + more)[..|calls + more| - 1] == calls + more[..|more| - 1];
      NumberedBoth(calls, more[..|more| - 1], first);
    }
  }

  lemma {:induction false} NumberedAt(calls: seq<SignedCall>, first: int, at: nat)
    requires at < |calls|
    ensures Numbered(calls, first)[at] == DeltaOf(calls[at], first + at)
    decreases |calls|
  {
    if at < |calls| - 1 {
      NumberedAt(calls[..|calls| - 1], first, at);
    }
  }

  lemma {:induction false} OneChunk(chunk: Chunk)
    ensures Deltas([chunk]) == if chunk.toolCall.Some? then [chunk.toolCall.value] else []
  {
    var chunks: seq<Chunk> := [chunk];
    assert chunks[..0] == [];
  }

  lemma {:induction false} PartIsNumbered(part: RawPart, index: int)
    ensures Deltas(PartChunks(part, index)) == Numbered(OwnCall(part), index)
  {
    var texts: seq<Chunk> := if part.text.Some? && part.text.value != "" then [TextChunk(part.text.value)] else [];
    var own := OwnCall(part);
    if texts != [] {
      OneChunk(texts[0]);
    }
    if own != [] {
      OneChunk(CallChunk(own[0], index));
      assert own[..0] == [];
      DeltasOfBoth(texts, [CallChunk(own[0], index)]);
    } else {
      assert texts + [] == texts;
    }
  }

  lemma {:induction false} PartsAreNumbered(parts: seq<RawPart>, first: int)
    ensures Deltas(AllPartChunks(parts, first)) == Numbered(Calls(parts), first)
    decreases |parts|
  {
    if parts != [] {
      var front, last := parts[..|parts| - 1], parts[|parts| - 1];
      var at := first + CallCount(front);
      CallsAreCounted(front);
      PartsAreNumbered(front, first);
      PartIsNumbered(last, at);
      DeltasOfBoth(AllPartChunks(front, first), PartChunks(last, at));
      NumberedBoth(Calls(front), OwnCall(last), first);
    }
  }

  lemma {:induction false} EndingHasNoCall(raw: RawChunk)
    ensures Deltas(Ending(raw)) == []
  {
    var usages: seq<Chunk> := if raw.usage.Some? then [Chunk("", None, raw.usage, None)] else [];
    var finishes: seq<Chunk> :=
      if raw.finish.Some? && raw.finish.value != "" then [Chunk("", None, None, raw.finish)] else [];
    if usages != [] {
      OneChunk(usages[0]);
    }
    if finishes != [] {
      OneChunk(finishes[0]);
    }
    DeltasOfBoth(usages, finishes);
  }

  /** Every chunk of one raw chunk is yielded, and the calls among them are counted as they go by. */
  method Yield(before: seq<Chunk>, mapped: seq<Chunk>, counted: nat) returns (chunks: seq<Chunk>, calls: nat)
    ensures chunks == before + mapped && calls == counted + |Deltas(mapped)|
  {
    chunks, calls := before, counted;
    for next := 0 to |mapped|
      invariant chunks == before + mapped[..next] && calls == counted + |Deltas(mapped[..next])|
    {
      assert mapped[..next + 1][..next] == mapped[..next];
      if mapped[next].toolCall.Some? {
        calls := calls + 1;
      }
      chunks := chunks + [mapped[next]];
    }
    assert mapped[..|mapped|] == mapped;
  }

  /** All chunks of a stream, the calls of each raw chunk numbered after those of the ones before it. */
  function Streamed(raws: seq<RawChunk>): seq<Chunk>
    decreases |raws|
  {
    if raws == [] then []
    else
      var front, raw := raws[..|raws| - 1], raws[|raws| - 1];
      Streamed(front) + RawChunks(raw, |Calls(AllParts(front))|)
  }

  method Stream(raws: seq<RawChunk>) returns (chunks: seq<Chunk>)
    ensures chunks == Streamed(raws)
  {
    chunks := [];
    var calls := 0;
    for next := 0 to |raws|
      invariant chunks == Streamed(raws[..next]) && calls == |Calls(AllParts(raws[..next]))|
    {
      assert raws[..next + 1][..next] == raws[..next];
      CallsOfBoth(AllParts(raws[..next]), raws[next].parts);
      RawIsNumbered(raws[next], calls);
      var mapped := ToChunks(raws[next], calls);
      chunks, calls := Yield(chunks, mapped, calls);
    }
    assert raws[..|raws|] == raws;
  }

  lemma {:induction false} NumberingGoesOn(
    before: seq<Chunk>, mapped: seq<Chunk>, calls: seq<SignedCall>, more: seq<SignedCall>, all: seq<SignedCall>)
    requires Deltas(before) == Numbered(calls, 0) && Deltas(mapped) == Numbered(more, |calls|) && all == calls + more
    ensures Deltas(before + mapped) == Numbered(all, 0)
  {
    NumberedBoth(calls, more, 0);
    DeltasOfBoth(before, mapped);
  }

  lemma {:induction false} RawIsNumbered(raw: RawChunk, first: int)
    ensures Deltas(RawChunks(raw, first)) == Numbered(Calls(raw.parts), first)
  {
    PartsAreNumbered(raw.parts, first);
    EndingHasNoCall(raw);
    DeltasOfBoth(AllPartChunks(raw.parts, first), Ending(raw));
  }

  /** The fragments of a stream are its calls, numbered from zero across its raw chunks. */
  lemma {:induction false} StreamedIsNumbered(raws: seq<RawChunk>)
    ensures Deltas(Streamed(raws)) == Numbered(Calls(AllParts(raws)), 0)
    decreases |raws|
  {
    if raws != [] {
      var front, raw := raws[..|raws| - 1], raws[|raws| - 1];
      var calls, more := Calls(AllParts(front)), Calls(raw.parts);
      StreamedIsNumbered(front);
      RawIsNumbered(raw, |calls|);
      CallsOfBoth(AllParts(front), raw.parts);
      NumberingGoesOn(Streamed(front), RawChunks(raw, |calls|), calls, more, Calls(AllParts(raws)));
    }
  }

  // ---------------------------------------------------------------- the text

  function PartText(part: RawPart): string {
    if part.text.Some? then part.text.value else ""
  }

  function AllText(parts: seq<RawPart>): string
    decreases |parts|
  {
    if parts == [] then "" else AllText(parts[..|parts| - 1]) + PartText(parts[|parts| - 1])
  }

  lemma {:induction false} TextOfBoth(some: seq<Chunk>, more: seq<Chunk>)
    ensures TextOf(some + more) == TextOf(some) + TextOf(more)
    decreases |more|
  {
    if more == [] {
      assert some + more == some;
    } else {
      assert (some + more)[..|some + more| - 1] == some + more[..|more| - 1];
      TextOfBoth(some, more[..|more| - 1]);
    }
  }

  lemma {:induction false} AllTextOfBoth(some: seq<RawPart>, more: seq<RawPart>)
    ensures AllText(some + more) == AllText(some) + AllText(more)
    decreases |more|
  {
    if more == [] {
      assert some + more == some;
    } else {
      assert (some + more)[..|some + more| - 1] == some + more[..|more| - 1];
      AllTextOfBoth(some, more[..|more| - 1]);
    }
  }

  lemma {:induction false} OneText(chunk: Chunk)
    ensures TextOf([chunk]) == chunk.text
  {
    var chunks: seq<Chunk> := [chunk];
    assert chunks[..0] == [];
  }

  lemma {:induction false} TextOfPart(part: RawPart, index: int)
    ensures TextOf(PartChunks(part, index)) == PartText(part)
  {
    var texts: seq<Chunk> := if part.text.Some? && part.text.value != "" then [TextChunk(part.text.value)] else [];
    if texts != [] {
      OneText(texts[0]);
    }
    if part.call.Some? {
      var call := CallChunk(SignedCall(part.call.value, part.signature), index);
      OneText(call);
      TextOfBoth(texts, [call]);
    } else {
      assert texts + [] == texts;
    }
  }

  lemma {:induction false} TextOfParts(parts: seq<RawPart>, first: int)
    ensures TextOf(AllPartChunks(parts, first)) == AllText(parts)
    decreases |parts|
  {
    if parts != [] {
      var front := parts[..|parts| - 1];
      TextOfParts(front, first);
      TextOfPart(parts[|parts| - 1], first + CallCount(front));
      TextOfBoth(AllPartChunks(front, first), PartChunks(parts[|parts| - 1], first + CallCount(front)));
    }
  }

  lemma {:induction false} NoTextAtTheEnd(raw: RawChunk)
    ensures TextOf(Ending(raw)) == ""
  {
    var usages: seq<Chunk> := if raw.usage.Some? then [Chunk("", None, raw.usage, None)] else [];
    if usages != [] {
      OneText(usages[0]);
    }
    if raw.finish.Some? && raw.finish.value != "" {
      OneText(Chunk("", None, None, raw.finish));
      TextOfBoth(usages, [Chunk("", None, None, raw.finish)]);
    } else {
      assert usages + [] == usages;
    }
  }

  /** The text of a stream is all its text parts, in order. */
  lemma {:induction false} StreamedTextIsWhole(raws: seq<RawChunk>)
    ensures TextOf(Streamed(raws)) == AllText(AllParts(raws))
    decreases |raws|
  {
    if raws != [] {
      var front, raw := raws[..|raws| - 1], raws[|raws| - 1];
      var first := |Calls(AllParts(front))|;
      StreamedTextIsWhole(front);
      TextOfParts(raw.parts, first);
      NoTextAtTheEnd(raw);
      TextOfBoth(AllPartChunks(raw.parts, first), Ending(raw));
      TextOfBoth(Streamed(front), RawChunks(raw, first));
      AllTextOfBoth(AllParts(front), raw.parts);
    }
  }

  // ---------------------------------------------------------------- put together again

  lemma {:induction false} OwnFragmentAlone(deltas: seq<Delta>, index: nat)
    requires forall k :: 0 <= k < |deltas| ==> deltas[k].index == k
    ensures Of(deltas, index) == if index < |deltas| then [deltas[index]] else []
    decreases |deltas|
  {
    if deltas != [] {
      OwnFragmentAlone(deltas[..|deltas| - 1], index);
    }
  }

  lemma {:induction false} NoNegativeCall(deltas: seq<Delta>, index: int)
    requires index < 0 && forall k :: 0 <= k < |deltas| ==> deltas[k].index == k
    ensures Of(deltas, index) == []
    decreases |deltas|
  {
    if deltas != [] {
      NoNegativeCall(deltas[..|deltas| - 1], index);
    }
  }

  lemma {:induction false} MergedAlone(delta: Delta)
    ensures Merged([delta]) == Partial(delta.arguments, delta.callId, delta.toolName, delta.signature)
  {
    var deltas: seq<Delta> := [delta];
    assert deltas[..0] == [];
  }

  /**
   * Aggregated, a Gemini stream gives back exactly the calls it carried: numbered from zero in the order
   * they arrived, none merged with another.
   */
  lemma {:induction false} CallsComeBackInOrder(raws: seq<RawChunk>, index: int)
    ensures var calls := Calls(AllParts(raws)); var aggregated := Accepted(Streamed(raws)).calls;
      && (index in aggregated <==> 0 <= index < |calls|)
      && (index in aggregated ==>
            var (call, signature) := (calls[index].call, calls[index].signature);
            aggregated[index] == Partial(call.arguments, call.id, call.name, signature))
  {
    var calls, deltas := Calls(AllParts(raws)), Deltas(Streamed(raws));
    StreamedIsNumbered(raws);
    forall k | 0 <= k < |deltas|
      ensures deltas[k] == DeltaOf(calls[k], k)
    {
      NumberedAt(calls, 0, k);
    }
    AcceptedIsPerIndex(Streamed(raws), index);
    if index < 0 {
      NoNegativeCall(deltas, index);
    } else {
      OwnFragmentAlone(deltas, index);
      if index < |deltas| {
        MergedAlone(deltas[index]);
      }
    }
  }

  // ---------------------------------------------------------------- the usage and the end

  /** The usage reported last, if any was. */
  ghost function ReportedLast(raws: seq<RawChunk>, otherwise: Usage): Usage
    decreases |raws|
  {
    if raws == [] then otherwise
    else
      var last := raws[|raws| - 1];
      if last.usage.Some? then last.usage.value else ReportedLast(raws[..|raws| - 1], otherwise)
  }

  /** The end reported last that says anything, if any did. */
  ghost function EndedLast(raws: seq<RawChunk>): Option<string>
    decreases |raws|
  {
    if raws == [] then None
    else
      var last := raws[|raws| - 1];
      if last.finish.Some? && last.finish.value != "" then last.finish else EndedLast(raws[..|raws| - 1])
  }

  lemma {:induction false} AcceptedOneMore(chunks: seq<Chunk>, chunk: Chunk)
    ensures Accepted(chunks + [chunk]) == Step(Accepted(chunks), chunk)
  {
    assert (chunks + [chunk])[..|chunks|] == chunks;
  }

  /** Chunks that report neither usage nor an end leave both as they were. */
  lemma {:induction false} QuietChunks(before: seq<Chunk>, more: seq<Chunk>)
    requires forall k :: 0 <= k < |more| ==> more[k].usage.None? && more[k].finishReason.None?
    ensures Accepted(before + more).usage == Accepted(before).usage
    ensures Accepted(before + more).finishReason == Accepted(before).finishReason
    decreases |more|
  {
    if more == [] {
      assert before + more == before;
    } else {
      var front, last := more[..|more| - 1], more[|more| - 1];
      QuietChunks(before, front);
      assert before + more == (before + front) + [last];
      AcceptedOneMore(before + front, last);
    }
  }

  lemma {:induction false} PartsAreQuiet(parts: seq<RawPart>, first: int)
    ensures forall k :: 0 <= k < |AllPartChunks(parts, first)| ==>
      AllPartChunks(parts, first)[k].usage.None? && AllPartChunks(parts, first)[k].finishReason.None?
    decreases |parts|
  {
    if parts != [] {
      PartsAreQuiet(parts[..|parts| - 1], first);
    }
  }

  lemma {:induction false} EndingReports(before: seq<Chunk>, raw: RawChunk)
    ensures var state, after := Accepted(before), Accepted(before + Ending(raw));
      && after.usage == (if raw.usage.Some? then raw.usage.value else state.usage)
      && after.finishReason == (if raw.finish.Some? && raw.finish.value != "" then raw.finish else state.finishReason)
  {
    var usages: seq<Chunk> := if raw.usage.Some? then [Chunk("", None, raw.usage, None)] else [];
    var finishes: seq<Chunk> :=
      if raw.finish.Some? && raw.finish.value != "" then [Chunk("", None, None, raw.finish)] else [];
    assert before + Ending(raw) == (before + usages) + finishes;
    if usages != [] {
      AcceptedOneMore(before, usages[0]);
    } else {
      assert before + usages == before;
    }
    if finishes != [] {
      AcceptedOneMore(before + usages, finishes[0]);
    } else {
      assert (before + usages) + finishes == before + usages;
    }
  }

  lemma {:induction false} RawReports(before: seq<Chunk>, raw: RawChunk, first: int)
    ensures var state, after := Accepted(before), Accepted(before + RawChunks(raw, first));
      && after.usage == (if raw.usage.Some? then raw.usage.value else state.usage)
      && after.finishReason == (if raw.finish.Some? && raw.finish.value != "" then raw.finish else state.finishReason)
  {
    var parts := AllPartChunks(raw.parts, first);
    PartsAreQuiet(raw.parts, first);
    QuietChunks(before, parts);
    EndingReports(before + parts, raw);
    assert before + RawChunks(raw, first) == (before + parts) + Ending(raw);
  }

  /** Aggregated, a stream has used what its raw chunks reported last, and ended as they said last. */
  lemma {:induction false} StreamedUsageIsTheLast(raws: seq<RawChunk>)
    ensures var state := Accepted(Streamed(raws));
      state.usage == ReportedLast(raws, Usage(0, 0, 0)) && state.finishReason == EndedLast(raws)
    decreases |raws|
  {
    if raws != [] {
      var front, raw := raws[..|raws| - 1], raws[|raws| - 1];
      StreamedUsageIsTheLast(front);
      RawReports(Streamed(front), raw, |Calls(AllParts(front))|);
    }
  }
}
