/**
 * The pieces of context that compaction keeps or drops whole
 * (packages/core/src/domain/context/context-block.value-object.ts).
 */
module ContextBlocks {
  import opened Options
  import opened Journal

  const IMAGE_CHARACTERS: nat := 258 * 4

  datatype MediaPart = MediaPart(mediaType: string, url: Option<string>, base64: string)

  datatype Message =
    | UserMessage(text: string, media: seq<MediaPart>)
    | AssistantMessage(text: string)
    | ToolCallMessage(callId: CallId, toolName: string, args: string, signature: Option<string>)
    | ToolResultMessage(callId: CallId, toolName: string, output: string, failed: bool, media: seq<MediaPart>)
  {
    /** The size a message is measured by: its words, plus a flat price for every image. */
    function Characters(): nat {
      match this
      case UserMessage(text, media) => |text| + |media| * IMAGE_CHARACTERS
      case AssistantMessage(text) => |text|
      case ToolCallMessage(_, toolName, args, _) => |toolName| + |args| + 2
      case ToolResultMessage(_, toolName, output, failed, media) =>
        |toolName| + |output| + (if failed then 8 else 4) + |media| * IMAGE_CHARACTERS
    }
  }

  datatype Category = Conversation | ToolResults | ActiveSkills | Summaries

  datatype Block = Block(
    category: Category,
    messages: seq<Message>,
    firstRevision: nat,
    lastRevision: nat,
    closed: bool,
    callId: Option<CallId>,
    pinned: bool)
  {
    predicate IsRemovable() {
      closed && !pinned
    }

    function AsSkill(): Block {
      this.(category := ActiveSkills, pinned := true)
    }

    function AlsoCalling(call: Message, revision: nat): Block {
      this.(messages := messages + [call], lastRevision := revision, closed := false)
    }

    function AnsweredBy(result: Message, revision: nat): Block {
      var answered := messages + [result];
      this.(messages := answered, lastRevision := revision, closed := |ResultIds(answered)| >= |CallIds(answered)|)
    }
  }

  function ConversationBlock(message: Message, revision: nat): Block {
    Block(Conversation, [message], revision, revision, true, None, false)
  }

  function SummaryBlock(message: Message, revision: nat): Block {
    Block(Summaries, [message], revision, revision, true, None, false)
  }

  function PendingCall(call: Message, revision: nat): Block
    requires call.ToolCallMessage?
  {
    Block(ToolResults, [call], revision, revision, false, Some(call.callId), false)
  }

  /** The ids the calls among some messages carry, in order. */
  function CallIds(messages: seq<Message>): (ids: seq<CallId>)
    ensures |ids| <= |messages|
  {
    if messages == [] then []
    else
      var before := CallIds(messages[..|messages| - 1]);
      var last := messages[|messages| - 1];
      if last.ToolCallMessage? then before + [last.callId] else before
  }

  /** The ids the results among some messages answer, in order. */
  function ResultIds(messages: seq<Message>): (ids: seq<CallId>)
    ensures |ids| <= |messages|
  {
    if messages == [] then []
    else
      var before := ResultIds(messages[..|messages| - 1]);
      var last := messages[|messages| - 1];
      if last.ToolResultMessage? then before + [last.callId] else before
  }

  lemma {:induction false} IdsOfOneMore(messages: seq<Message>, message: Message)
    ensures CallIds(messages + [message])
         == if message.ToolCallMessage? then CallIds(messages) + [message.callId] else CallIds(messages)
    ensures ResultIds(messages + [message])
         == if message.ToolResultMessage? then ResultIds(messages) + [message.callId] else ResultIds(messages)
  {
    assert (messages + [message])[..|messages|] == messages;
  }

  /** The furthest revision any of the blocks reaches, which is what a checkpoint claims to cover. */
  function Covered(blocks: seq<Block>): nat {
    if blocks == [] then 0
    else
      var before := Covered(blocks[..|blocks| - 1]);
      var last := blocks[|blocks| - 1].lastRevision;
      if last > before then last else before
  }

  /** No block reaches further than what is covered, and one reaches as far. */
  lemma {:induction false} CoversTheFurthest(blocks: seq<Block>)
    ensures forall i :: 0 <= i < |blocks| ==> blocks[i].lastRevision <= Covered(blocks)
    ensures Covered(blocks) == 0 || exists i :: 0 <= i < |blocks| && blocks[i].lastRevision == Covered(blocks)
    decreases |blocks|
  {
    if blocks != [] {
      var last := |blocks| - 1;
      CoversTheFurthest(blocks[..last]);
      if Covered(blocks) != blocks[last].lastRevision && Covered(blocks) > 0 {
        var i :| 0 <= i < last && blocks[..last][i].lastRevision == Covered(blocks);
        assert blocks[i].lastRevision == Covered(blocks);
      }
    }
  }
}
