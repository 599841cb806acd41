/**
 * Folding a conversation into the contents of a Gemini request, and signing its function calls
 * (packages/google/src/mapping/gemini-request.mapper.ts). A call that came without a signature joins
 * the signed call it was made beside, and results of one round share a content.
 */
module GeminiRequests {
  import opened Options

  type Signature = string
  type CallId = string

  const UNSIGNED: Signature := "skip_thought_signature_validator"

  datatype Media = FileUri(uri: string, mediaType: string) | Inline(base64: string, mediaType: string)

  datatype Part =
    | TextPart(text: string)
    | DataPart(media: Media)
    | CallPart(callId: CallId, name: string, args: string, signature: Option<Signature>)
    | ResultPart(callId: CallId, name: string, response: string)

  datatype Role = User | Model

  datatype Content = Content(role: Role, parts: seq<Part>)

  datatype Message =
    | Assistant(text: string)
    | ToolCall(callId: CallId, toolName: string, args: string, signature: Option<Signature>)
    | ToolResult(callId: CallId, toolName: string, output: string)
    | FromUser(text: string, media: seq<Media>)
    | Other(text: string)

  function RoleOf(message: Message): Role {
    if message.Assistant? || message.ToolCall? then Model else User
  }

  function PartsOf(message: Message): (parts: seq<Part>)
    ensures parts != []
  {
    match message
    case Assistant(text) => [TextPart(text)]
    case ToolCall(callId, name, args, signature) => [CallPart(callId, name, args, signature)]
    case ToolResult(callId, name, output) => [ResultPart(callId, name, output)]
    case FromUser(text, media) => seq(|media|, i requires 0 <= i < |media| => DataPart(media[i])) + [TextPart(text)]
    case Other(text) => [TextPart(text)]
  }

  predicate CarriesCalls(content: Content) {
    content.parts != [] && forall p :: 0 <= p < |content.parts| ==> content.parts[p].CallPart?
  }

  predicate CarriesResults(content: Content) {
    content.parts != [] && forall p :: 0 <= p < |content.parts| ==> content.parts[p].ResultPart?
  }

  predicate IsSignedAnswer(content: Content) {
    CarriesCalls(content) && content.parts[0].signature.Some?
  }

  // ---------------------------------------------------------------- one message after the other

  /** The contents so far, the content of the last answer that opened one, and where each message went. */
  datatype Folded = Folded(contents: seq<Content>, lastAnswer: Option<nat>, placed: seq<nat>)

  /** The content an already open one takes the message into, if any. */
  function Target(contents: seq<Content>, lastAnswer: Option<nat>, message: Message): (target: Option<nat>)
    ensures target.Some? ==> target.value < |contents|
  {
    if message.ToolCall? then
      if message.signature.None? && lastAnswer.Some? && lastAnswer.value < |contents|
         && IsSignedAnswer(contents[lastAnswer.value])
      then lastAnswer else None
    else if message.ToolResult? then
      if contents != [] && CarriesResults(contents[|contents| - 1]) then Some(|contents| - 1) else None
    else None
  }

  function Step(folded: Folded, message: Message): Folded {
    var contents := folded.contents;
    match Target(contents, folded.lastAnswer, message)
    case Some(at) =>
      Folded(contents[at := Content(RoleOf(message), contents[at].parts + PartsOf(message))],
             folded.lastAnswer, folded.placed + [at])
    case None =>
      Folded(contents + [Content(RoleOf(message), PartsOf(message))],
             if message.ToolCall? then Some(|contents|) else folded.lastAnswer, folded.placed + [|contents|])
  }

  function Built(messages: seq<Message>): Folded
    decreases |messages|
  {
    if messages == [] then Folded([], None, [])
    else Step(Built(messages[..|messages| - 1]), messages[|messages| - 1])
  }

  method FoldCall(contents: seq<Content>, message: Message, lastAnswer: Option<nat>)
    returns (after: seq<Content>, at: Option<nat>)
    requires message.ToolCall? && (lastAnswer.Some? ==> lastAnswer.value < |contents|)
    ensures at == Target(contents, lastAnswer, message)
    ensures after == if at.None? then contents
      else contents[at.value := Content(Model, contents[at.value].parts + PartsOf(message))]
  {
    after, at := contents, None;
    if message.signature.Some? || lastAnswer.None? || !IsSignedAnswer(contents[lastAnswer.value]) {
      return;
    }
    at := lastAnswer;
    after := contents[at.value := Content(Model, contents[at.value].parts + PartsOf(message))];
  }

  method FoldResult(contents: seq<Content>, message: Message) returns (after: seq<Content>, at: Option<nat>)
    requires message.ToolResult?
    ensures at == Target(contents, None, message)
    ensures after == if at.None? then contents
      else contents[at.value := Content(User, contents[at.value].parts + PartsOf(message))]
  {
    after, at := contents, None;
    if contents == [] || !CarriesResults(contents[|contents| - 1]) {
      return;
    }
    at := Some(|contents| - 1);
    after := contents[at.value := Content(User, contents[at.value].parts + PartsOf(message))];
  }

  /** Whatever the messages, in whatever order. */
  method BuildContents(messages: seq<Message>) returns (contents: seq<Content>)
    ensures contents == Built(messages).contents
  {
    contents := [];
    var lastAnswer: Option<nat> := None;
    for next := 0 to |messages|
      invariant Built(messages[..next]).contents == contents && Built(messages[..next]).lastAnswer == lastAnswer
      invariant lastAnswer.Some? ==> lastAnswer.value < |contents|
    {
      var message := messages[next];
      assert messages[..next + 1][..next] == messages[..next];
      var at: Option<nat> := None;
      if message.ToolCall? {
        contents, at := FoldCall(contents, message, lastAnswer);
      } else if message.ToolResult? {
        contents, at := FoldResult(contents, message);
      }
      if at.None? {
        contents := contents + [Content(RoleOf(message), PartsOf(message))];
        lastAnswer := if message.ToolCall? then Some(|contents| - 1) else lastAnswer;
      }
    }
    assert messages[..|messages|] == messages;
  }

  // ---------------------------------------------------------------- what the folding keeps

  /** The parts of the messages that went into content `at`, in the order of the messages. */
  function Gathered(messages: seq<Message>, placed: seq<nat>, at: nat): seq<Part>
    requires |placed| == |messages|
    decreases |messages|
  {
    if messages == [] then []
    else
      var last := |messages| - 1;
      Gathered(messages[..last], placed[..last], at) + (if placed[last] == at then PartsOf(messages[last]) else [])
  }

  /** Every content is exactly the parts of the messages placed in it, under their role. */
  ghost predicate Conserves(messages: seq<Message>, folded: Folded) {
    && |folded.placed| == |messages|
    && (forall k :: 0 <= k < |messages| ==>
          folded.placed[k] < |folded.contents| && folded.contents[folded.placed[k]].role == RoleOf(messages[k]))
    && (forall at :: 0 <= at < |folded.contents| ==>
          folded.contents[at].parts != [] && folded.contents[at].parts == Gathered(messages, folded.placed, at))
  }

  /** Where one message stands against an earlier one. */
  predicate InOrder(earlier: Message, later: Message, at: nat, after: nat) {
    && (!later.ToolCall? || earlier.ToolCall? ==> at <= after)
    && (earlier.ToolCall? && later.ToolResult? ==> at < after)
  }

  /** Calls keep their order, results theirs, and a result comes in a later content than any earlier call. */
  ghost predicate Ordered(messages: seq<Message>, placed: seq<nat>) {
    && |placed| == |messages|
    && forall i, j :: 0 <= i < j < |messages| ==> InOrder(messages[i], messages[j], placed[i], placed[j])
  }

  /** Calls share a content with calls alone, and only the call that opens it may be signed. */
  ghost predicate WellFormed(content: Content) {
    && content.parts != []
    && (CarriesResults(content) ==> content.role == User)
    && ((exists p :: 0 <= p < |content.parts| && content.parts[p].CallPart?) ==>
          && CarriesCalls(content) && content.role == Model
          && forall p :: 1 <= p < |content.parts| ==> content.parts[p].signature.None?)
  }

  ghost predicate AnswersKnown(messages: seq<Message>, folded: Folded)
    requires |folded.placed| == |messages|
  {
    match folded.lastAnswer
    case None => forall k :: 0 <= k < |messages| ==> !messages[k].ToolCall?
    case Some(last) =>
      && last < |folded.contents| && CarriesCalls(folded.contents[last])
      && forall k :: 0 <= k < |messages| && messages[k].ToolCall? ==> folded.placed[k] <= last
  }

  ghost predicate CallsApart(messages: seq<Message>, folded: Folded)
    requires |folded.placed| == |messages|
  {
    forall k :: 0 <= k < |messages| && messages[k].ToolCall? ==>
      folded.placed[k] < |folded.contents| && CarriesCalls(folded.contents[folded.placed[k]])
  }

  ghost predicate Faithful(messages: seq<Message>, folded: Folded) {
    && Conserves(messages, folded)
    && Ordered(messages, folded.placed)
    && AnswersKnown(messages, folded)
    && CallsApart(messages, folded)
    && (forall at :: 0 <= at < |folded.contents| ==> WellFormed(folded.contents[at]))
  }

  lemma {:induction false} GatheredOneMore(messages: seq<Message>, message: Message, placed: seq<nat>, to: nat, at: nat)
    requires |placed| == |messages|
    ensures Gathered(messages + [message], placed + [to], at)
      == Gathered(messages, placed, at) + (if to == at then PartsOf(message) else [])
  {
    assert (messages + [message])[..|messages|] == messages;
    assert (placed + [to])[..|messages|] == placed;
  }

  lemma {:induction false} GatheredNothing(messages: seq<Message>, placed: seq<nat>, at: nat)
    requires |placed| == |messages| && forall k :: 0 <= k < |placed| ==> placed[k] != at
    ensures Gathered(messages, placed, at) == []
    decreases |messages|
  {
    if messages != [] {
      GatheredNothing(messages[..|messages| - 1], placed[..|messages| - 1], at);
    }
  }

  lemma {:induction false} StepGathers(messages: seq<Message>, message: Message, folded: Folded, next: Folded, at: nat)
    requires Conserves(messages, folded) && next == Step(folded, message) && at < |next.contents|
    ensures |next.placed| == |messages + [message]| && next.contents[at].parts != []
    ensures next.contents[at].parts == Gathered(messages + [message], next.placed, at)
  {
    GatheredOneMore(messages, message, folded.placed, next.placed[|messages|], at);
    if at == |folded.contents| {
      GatheredNothing(messages, folded.placed, at);
    }
  }

  lemma {:induction false} StepConserves(messages: seq<Message>, message: Message, folded: Folded)
    requires Conserves(messages, folded)
    requires forall at :: 0 <= at < |folded.contents| ==> WellFormed(folded.contents[at])
    ensures Conserves(messages + [message], Step(folded, message))
  {
    var next := Step(folded, message);
    forall at | 0 <= at < |next.contents|
      ensures next.contents[at].parts != []
      ensures next.contents[at].parts == Gathered(messages + [message], next.placed, at)
    {
      StepGathers(messages, message, folded, next, at);
    }
    JoinsItsRole(folded, message);
  }

  lemma {:induction false} JoinsItsRole(folded: Folded, message: Message)
    requires forall at :: 0 <= at < |folded.contents| ==> WellFormed(folded.contents[at])
    ensures var target := Target(folded.contents, folded.lastAnswer, message);
      target.Some? ==> folded.contents[target.value].role == RoleOf(message)
  {
    var target := Target(folded.contents, folded.lastAnswer, message);
    if target.Some? && message.ToolCall? {
      assert folded.contents[target.value].parts[0].CallPart?;
    }
  }

  lemma {:induction false} JoinedIsWellFormed(content: Content, message: Message)
    requires WellFormed(content)
    requires || (message.ToolCall? && message.signature.None? && IsSignedAnswer(content))
             || (message.ToolResult? && CarriesResults(content))
    ensures var joined := Content(RoleOf(message), content.parts + PartsOf(message));
      WellFormed(joined) && (CarriesCalls(content) ==> CarriesCalls(joined))
      && (IsSignedAnswer(content) ==> IsSignedAnswer(joined))
      && (CarriesResults(joined) <==> message.ToolResult?) && (CarriesResults(content) <==> message.ToolResult?)
  {
    var joined := Content(RoleOf(message), content.parts + PartsOf(message));
    assert joined.parts[0] == content.parts[0];
  }

  lemma {:induction false} PushedIsWellFormed(message: Message)
    ensures var pushed := Content(RoleOf(message), PartsOf(message));
      WellFormed(pushed) && (message.ToolCall? ==> CarriesCalls(pushed))
      && (CarriesResults(pushed) <==> message.ToolResult?)
  {
    var pushed := Content(RoleOf(message), PartsOf(message));
    assert pushed.parts[0].ResultPart? ==> message.ToolResult?;
  }

  lemma {:induction false} StepKeepsWellFormed(folded: Folded, message: Message)
    requires forall at :: 0 <= at < |folded.contents| ==> WellFormed(folded.contents[at])
    ensures forall at :: 0 <= at < |Step(folded, message).contents| ==> WellFormed(Step(folded, message).contents[at])
    ensures forall at :: 0 <= at < |folded.contents| && CarriesCalls(folded.contents[at]) ==>
      CarriesCalls(Step(folded, message).contents[at])
  {
    var target := Target(folded.contents, folded.lastAnswer, message);
    PushedIsWellFormed(message);
    if target.Some? {
      JoinedIsWellFormed(folded.contents[target.value], message);
    }
  }

  lemma {:induction false} StepKeepsOrder(messages: seq<Message>, message: Message, folded: Folded)
    requires Faithful(messages, folded)
    ensures Ordered(messages + [message], Step(folded, message).placed)
  {
    var placed, n := Step(folded, message).placed, |messages|;
    forall i | 0 <= i < n
      ensures InOrder(messages[i], message, placed[i], placed[n])
    {
      if messages[i].ToolCall? {
        assert folded.contents[placed[i]].parts[0].CallPart?;
      }
    }
    forall i, j | 0 <= i < j <= n
      ensures InOrder((messages + [message])[i], (messages + [message])[j], placed[i], placed[j])
    {
    }
  }

  lemma {:induction false} StepKeepsAnswers(messages: seq<Message>, message: Message, folded: Folded)
    requires Faithful(messages, folded)
    ensures var next := Step(folded, message);
      |next.placed| == |messages + [message]| && AnswersKnown(messages + [message], next)
      && CallsApart(messages + [message], next)
  {
    var next, all := Step(folded, message), messages + [message];
    PushedIsWellFormed(message);
    StepKeepsWellFormed(folded, message);
    forall k | 0 <= k < |all| && all[k].ToolCall?
      ensures next.placed[k] < |next.contents| && CarriesCalls(next.contents[next.placed[k]])
    {
      if k < |messages| {
        assert next.placed[k] == folded.placed[k];
      }
    }
  }

  lemma {:induction false} StepIsFaithful(messages: seq<Message>, message: Message, folded: Folded)
    requires Faithful(messages, folded)
    ensures Faithful(messages + [message], Step(folded, message))
  {
    StepConserves(messages, message, folded);
    StepKeepsWellFormed(folded, message);
    StepKeepsOrder(messages, message, folded);
    StepKeepsAnswers(messages, message, folded);
  }

  // ---------------------------------------------------------------- which contents are shared

  /** The latest call that came with a signature. */
  function LastSigned(messages: seq<Message>): (at: Option<nat>)
    ensures at.Some? ==> at.value < |messages| && messages[at.value].ToolCall? && messages[at.value].signature.Some?
    decreases |messages|
  {
    if messages == [] then None
    else
      var last := |messages| - 1;
      if messages[last].ToolCall? && messages[last].signature.Some? then Some(last) else LastSigned(messages[..last])
  }

  /** Whether results are the last thing said, calls that joined an earlier answer aside. */
  predicate ResultsOpen(messages: seq<Message>)
    decreases |messages|
  {
    messages != [] &&
    var last, before := messages[|messages| - 1], messages[..|messages| - 1];
    (last.ToolResult? || (last.ToolCall? && last.signature.None? && LastSigned(before).Some? && ResultsOpen(before)))
  }

  /** The answer that is open is the one the latest signed call opened. */
  ghost predicate OpenAnswer(messages: seq<Message>, folded: Folded) {
    && |folded.placed| == |messages|
    && (folded.lastAnswer.Some? ==> folded.lastAnswer.value < |folded.contents|)
    && match LastSigned(messages)
       case Some(i) =>
         folded.lastAnswer == Some(folded.placed[i]) && IsSignedAnswer(folded.contents[folded.placed[i]])
       case None =>
         folded.lastAnswer.Some? ==> !IsSignedAnswer(folded.contents[folded.lastAnswer.value])
  }

  ghost predicate OpenResults(messages: seq<Message>, folded: Folded) {
    ResultsOpen(messages) <==>
      folded.contents != [] && CarriesResults(folded.contents[|folded.contents| - 1])
  }

  lemma {:induction false} StepKeepsOpenAnswer(messages: seq<Message>, message: Message, folded: Folded)
    requires Faithful(messages, folded) && OpenAnswer(messages, folded)
    ensures OpenAnswer(messages + [message], Step(folded, message))
  {
    assert (messages + [message])[..|messages|] == messages;
    var target := Target(folded.contents, folded.lastAnswer, message);
    if target.Some? {
      JoinedIsWellFormed(folded.contents[target.value], message);
    }
  }

  lemma {:induction false} StepKeepsOpenResults(messages: seq<Message>, message: Message, folded: Folded)
    requires forall at :: 0 <= at < |folded.contents| ==> WellFormed(folded.contents[at])
    requires OpenAnswer(messages, folded) && OpenResults(messages, folded)
    ensures OpenResults(messages + [message], Step(folded, message))
  {
    assert (messages + [message])[..|messages|] == messages;
    var target := Target(folded.contents, folded.lastAnswer, message);
    if target.Some? {
      JoinedIsWellFormed(folded.contents[target.value], message);
    } else {
      PushedIsWellFormed(message);
    }
  }

  ghost predicate Kept(messages: seq<Message>, folded: Folded) {
    Faithful(messages, folded) && OpenAnswer(messages, folded) && OpenResults(messages, folded)
  }

  lemma {:induction false} StepKeeps(messages: seq<Message>, message: Message, folded: Folded,
    after: seq<Message>, next: Folded)
    requires Kept(messages, folded) && after == messages + [message] && next == Step(folded, message)
    ensures Kept(after, next)
  {
    StepIsFaithful(messages, message, folded);
    StepKeepsOpenAnswer(messages, message, folded);
    StepKeepsOpenResults(messages, message, folded);
  }

  lemma {:induction false} NothingIsKept()
    ensures Kept([], Folded([], None, []))
  {
  }

  lemma {:induction false} BuiltFrom(messages: seq<Message>, front: seq<Message>, last: Message, folded: Folded)
    returns (before: Folded)
    requires messages != [] && folded == Built(messages)
    requires front == messages[..|messages| - 1] && last == messages[|messages| - 1]
    ensures before == Built(front) && messages == front + [last] && folded == Step(before, last)
  {
    before := Built(front);
  }

  lemma {:induction false} BuiltIsKept(messages: seq<Message>)
    ensures Kept(messages, Built(messages))
    decreases |messages|
  {
    var folded := Built(messages);
    if messages == [] {
      NothingIsKept();
    } else {
      var front, last := messages[..|messages| - 1], messages[|messages| - 1];
      var before := BuiltFrom(messages, front, last, folded);
      BuiltIsKept(front);
      StepKeeps(front, last, before, messages, folded);
    }
  }

  /**
   * Every conversation is conserved: each content is exactly the parts of the messages placed in it, in
   * their order and under their role; calls keep their order and results theirs; no result shares a
   * content with an earlier call or precedes it.
   */
  lemma {:induction false} BuiltIsFaithful(messages: seq<Message>)
    ensures Faithful(messages, Built(messages))
  {
    BuiltIsKept(messages);
  }

  /** Some parts say, field by field, what a message said. */
  ghost predicate Tells(message: Message, parts: seq<Part>) {
    match message
    case Assistant(text) => |parts| == 1 && parts[0].TextPart? && parts[0].text == text
    case Other(text) => |parts| == 1 && parts[0].TextPart? && parts[0].text == text
    case ToolCall(callId, toolName, args, signature) =>
      && |parts| == 1 && parts[0].CallPart? && parts[0].callId == callId
      && parts[0].name == toolName && parts[0].args == args && parts[0].signature == signature
    case ToolResult(callId, toolName, output) =>
      && |parts| == 1 && parts[0].ResultPart? && parts[0].callId == callId
      && parts[0].name == toolName && parts[0].response == output
    case FromUser(text, media) =>
      && |parts| == |media| + 1 && parts[|media|].TextPart? && parts[|media|].text == text
      && forall i :: 0 <= i < |media| ==> parts[i].DataPart? && parts[i].media == media[i]
  }

  /** Every message is told whole, in one run of the parts of the content it was placed in, under its own role. */
  lemma {:induction false} EachMessageIsTold(messages: seq<Message>, k: nat) returns (from: nat, to: nat)
    requires k < |messages|
    ensures |Built(messages).placed| == |messages| && Built(messages).placed[k] < |Built(messages).contents|
    ensures var content := Built(messages).contents[Built(messages).placed[k]];
      && from <= to <= |content.parts| && Tells(messages[k], content.parts[from..to])
      && (content.role == Model <==> messages[k].Assistant? || messages[k].ToolCall?)
  {
    IsInItsContent(messages, k);
    from := GatheredHolds(messages, Built(messages).placed, k);
    to := from + |PartsOf(messages[k])|;
    PartsTell(messages[k]);
  }

  lemma {:induction false} IsInItsContent(messages: seq<Message>, k: nat)
    requires k < |messages|
    ensures var built := Built(messages);
      && |built.placed| == |messages| && built.placed[k] < |built.contents|
      && built.contents[built.placed[k]].role == RoleOf(messages[k])
      && built.contents[built.placed[k]].parts == Gathered(messages, built.placed, built.placed[k])
  {
    BuiltIsFaithful(messages);
  }

  lemma {:induction false} PartsTell(message: Message)
    ensures Tells(message, PartsOf(message))
  {
  }

  lemma {:induction false} GatheredHolds(messages: seq<Message>, placed: seq<nat>, k: nat) returns (from: nat)
    requires |placed| == |messages| && k < |messages|
    ensures var gathered, parts := Gathered(messages, placed, placed[k]), PartsOf(messages[k]);
      from + |parts| <= |gathered| && gathered[from..from + |parts|] == parts
    decreases |messages|
  {
    var last := |messages| - 1;
    if k == last {
      from := |Gathered(messages[..last], placed[..last], placed[k])|;
    } else {
      from := GatheredHolds(messages[..last], placed[..last], k);
    }
  }

  /**
   * Exactly which content the next message joins: an unsigned call joins the latest signed call, however
   * long ago it was made; a result joins the results it follows; everything else opens a content.
   */
  lemma {:induction false} JoinsExactly(messages: seq<Message>, message: Message)
    ensures var built := Built(messages);
      && |built.placed| == |messages|
      && Target(built.contents, built.lastAnswer, message) ==
        if message.ToolCall? then
          (if message.signature.Some? || LastSigned(messages).None? then None
           else Some(built.placed[LastSigned(messages).value]))
        else if message.ToolResult? && ResultsOpen(messages) then Some(|built.contents| - 1)
        else None
  {
    BuiltIsKept(messages);
  }

  // ---------------------------------------------------------------- the turn under way

  /** A content the user opened a turn with: theirs, and no results of a call. */
  predicate Opens(content: Content) {
    content.role == User && !CarriesResults(content)
  }

  /** A message the user opens a turn with. */
  predicate OpensTurn(message: Message) {
    message.FromUser? || message.Other?
  }

  ghost predicate OpenedBy(messages: seq<Message>, folded: Folded, at: nat)
    requires |folded.placed| == |messages|
  {
    exists m :: 0 <= m < |messages| && OpensTurn(messages[m]) && folded.placed[m] == at
  }

  /** The contents that open a turn are those of the messages that do. */
  ghost predicate TurnsOpen(messages: seq<Message>, folded: Folded)
    requires |folded.placed| == |messages|
  {
    forall at :: 0 <= at < |folded.contents| ==> (Opens(folded.contents[at]) <==> OpenedBy(messages, folded, at))
  }

  /** A call that went before the content of an earlier message joined a signed answer. */
  ghost predicate JoinedSigned(messages: seq<Message>, folded: Folded)
    requires |folded.placed| == |messages|
  {
    forall j, k :: 0 <= j < k < |messages| && messages[k].ToolCall? && folded.placed[j] > folded.placed[k] ==>
      folded.placed[k] < |folded.contents| && IsSignedAnswer(folded.contents[folded.placed[k]])
  }

  lemma {:induction false} StepKeepsSigned(messages: seq<Message>, message: Message, folded: Folded)
    requires Faithful(messages, folded) && JoinedSigned(messages, folded)
    ensures |Step(folded, message).placed| == |messages + [message]|
    ensures JoinedSigned(messages + [message], Step(folded, message))
  {
    var next, all := Step(folded, message), messages + [message];
    var target := Target(folded.contents, folded.lastAnswer, message);
    if target.Some? {
      JoinedIsWellFormed(folded.contents[target.value], message);
    }
    forall j, k | 0 <= j < k < |all| && all[k].ToolCall? && next.placed[j] > next.placed[k]
      ensures next.placed[k] < |next.contents| && IsSignedAnswer(next.contents[next.placed[k]])
    {
      if k < |messages| {
        assert next.placed[k] == folded.placed[k] && next.placed[j] == folded.placed[j];
        assert IsSignedAnswer(folded.contents[folded.placed[k]]);
      }
    }
  }

  /** One more message opens a turn exactly when its content does, and no other content begins or ceases to. */
  lemma {:induction false} StepOpens(messages: seq<Message>, message: Message, folded: Folded)
    requires Faithful(messages, folded)
    ensures var next := Step(folded, message);
      && |next.placed| == |messages| + 1 && next.placed[..|messages|] == folded.placed
      && next.placed[|messages|] < |next.contents|
      && (Opens(next.contents[next.placed[|messages|]]) <==> OpensTurn(message))
      && (forall at :: 0 <= at < |next.contents| && at != next.placed[|messages|] ==>
            at < |folded.contents| && next.contents[at] == folded.contents[at])
      && (next.placed[|messages|] < |folded.contents| ==> !Opens(folded.contents[next.placed[|messages|]]))
  {
    var target := Target(folded.contents, folded.lastAnswer, message);
    PushedIsWellFormed(message);
    if target.Some? {
      JoinsItsRole(folded, message);
      JoinedIsWellFormed(folded.contents[target.value], message);
    }
  }

  lemma {:induction false} StepKeepsTurns(messages: seq<Message>, message: Message, folded: Folded)
    requires Faithful(messages, folded) && TurnsOpen(messages, folded)
    ensures |Step(folded, message).placed| == |messages + [message]|
    ensures TurnsOpen(messages + [message], Step(folded, message))
  {
    var next, all, n := Step(folded, message), messages + [message], |messages|;
    StepOpens(messages, message, folded);
    assert forall m :: 0 <= m < n ==> all[m] == messages[m] && next.placed[m] == folded.placed[m];
    forall at | 0 <= at < |next.contents|
      ensures Opens(next.contents[at]) <==> OpenedBy(all, next, at)
    {
      assert all[n] == message;
      if at < |folded.contents| {
        assert Opens(folded.contents[at]) <==> OpenedBy(messages, folded, at);
      }
      if OpenedBy(messages, folded, at) {
        var m :| 0 <= m < n && OpensTurn(messages[m]) && folded.placed[m] == at;
        assert OpensTurn(all[m]) && next.placed[m] == at;
      }
    }
  }

  lemma {:induction false} StepKeepsBoth(messages: seq<Message>, message: Message, folded: Folded,
    after: seq<Message>, next: Folded)
    requires Faithful(messages, folded) && TurnsOpen(messages, folded) && JoinedSigned(messages, folded)
    requires after == messages + [message] && next == Step(folded, message)
    ensures |next.placed| == |after| && TurnsOpen(after, next) && JoinedSigned(after, next)
  {
    StepKeepsTurns(messages, message, folded);
    StepKeepsSigned(messages, message, folded);
  }

  /** The contents that open turns are those of the messages that do, and no call went before one unsigned. */
  lemma {:induction false} BuiltOpensTurns(messages: seq<Message>)
    ensures |Built(messages).placed| == |messages|
    ensures TurnsOpen(messages, Built(messages)) && JoinedSigned(messages, Built(messages))
    decreases |messages|
  {
    if messages != [] {
      var front, last := messages[..|messages| - 1], messages[|messages| - 1];
      var before := BuiltFrom(messages, front, last, Built(messages));
      BuiltIsFaithful(front);
      BuiltOpensTurns(front);
      StepKeepsBoth(front, last, before, messages, Built(messages));
    }
  }

  // ---------------------------------------------------------------- signing the turn under way

  method CurrentTurnAt(contents: seq<Content>) returns (opener: int)
    ensures -1 <= opener < |contents| && (opener >= 0 ==> Opens(contents[opener]))
    ensures forall at :: opener < at < |contents| ==> !Opens(contents[at])
  {
    opener := |contents| - 1;
    while opener >= 0
      invariant -1 <= opener < |contents|
      invariant forall at :: opener < at < |contents| ==> !Opens(contents[at])
    {
      if Opens(contents[opener]) {
        return;
      }
      opener := opener - 1;
    }
  }

  /** The first call among some parts, or their number. */
  function FirstCall(parts: seq<Part>): (first: nat)
    ensures first <= |parts| && (first < |parts| ==> parts[first].CallPart?)
    ensures forall p :: 0 <= p < first ==> !parts[p].CallPart?
  {
    if parts == [] || parts[0].CallPart? then 0 else 1 + FirstCall(parts[1..])
  }

  function SignedTurn(content: Content): Content {
    var first := FirstCall(content.parts);
    if content.role != Model || first == |content.parts| || content.parts[first].signature.Some? then content
    else content.(parts := content.parts[first := content.parts[first].(signature := Some(UNSIGNED))])
  }

  /** No content from this one on opens a turn. */
  ghost predicate AfterOpener(contents: seq<Content>, at: nat) {
    forall later :: at <= later < |contents| ==> !Opens(contents[later])
  }

  ghost predicate IsSignedFrom(contents: seq<Content>, signed: seq<Content>) {
    && |signed| == |contents|
    && forall at :: 0 <= at < |contents| ==>
      signed[at] == if AfterOpener(contents, at) then SignedTurn(contents[at]) else contents[at]
  }

  method SignContents(signsCalls: bool, contents: seq<Content>) returns (signed: seq<Content>)
    ensures !signsCalls ==> signed == contents
    ensures signsCalls ==> IsSignedFrom(contents, signed)
  {
    if !signsCalls {
      return contents;
    }
    var opener := CurrentTurnAt(contents);
    signed := seq(|contents|, at requires 0 <= at < |contents| =>
      if at > opener then SignedTurn(contents[at]) else contents[at]);
  }

  /** The signatures a content already carries, and everything else about it, with no signature added. */
  function Unsigned(part: Part): Part {
    if part.CallPart? then part.(signature := None) else part
  }

  /** Signing adds a signature to one call that had none, and touches nothing else. */
  ghost predicate SignsAtMostTheFirstCall(content: Content, signed: Content) {
    && signed.role == content.role && |signed.parts| == |content.parts|
    && (forall p :: 0 <= p < |content.parts| ==> Unsigned(signed.parts[p]) == Unsigned(content.parts[p]))
    && (forall p :: 0 <= p < |content.parts| && signed.parts[p] != content.parts[p] ==>
          && p == FirstCall(content.parts) && content.parts[p].signature.None?
          && signed.parts[p].signature == Some("skip_thought_signature_validator"))
  }

  /** Nothing said after a message opens a turn. */
  ghost predicate SinceOpener(messages: seq<Message>, k: nat) {
    forall later :: k <= later < |messages| ==> !OpensTurn(messages[later])
  }

  /**
   * In the request of a model that signs calls, every call made since the user last opened a turn stands
   * in a content whose first part is a signed call, be it of that turn or of an earlier one; and nothing
   * said, called or answered has changed.
   */
  lemma {:induction false} CallsOfTheTurnAreSigned(messages: seq<Message>, signed: seq<Content>)
    requires IsSignedFrom(Built(messages).contents, signed)
    ensures var built := Built(messages);
      && |built.placed| == |messages|
      && (forall at :: 0 <= at < |signed| ==> SignsAtMostTheFirstCall(built.contents[at], signed[at]))
      && (forall k :: 0 <= k < |messages| && messages[k].ToolCall? && SinceOpener(messages, k) ==>
            built.placed[k] < |signed| && IsSignedAnswer(signed[built.placed[k]]))
      && (forall k :: 0 <= k < |messages| && messages[k].ToolCall? && AfterOpener(built.contents, built.placed[k]) ==>
            SinceOpener(messages, k))
  {
    EachIsPlaced(messages);
    SigningAddsNothingElse(Built(messages).contents, signed);
    forall k | 0 <= k < |messages| && messages[k].ToolCall?
      ensures var at := Built(messages).placed[k];
        && at < |signed|
        && (SinceOpener(messages, k) ==> IsSignedAnswer(signed[at]))
        && (AfterOpener(Built(messages).contents, at) ==> SinceOpener(messages, k))
    {
      CallIsSigned(messages, Built(messages), signed, k);
    }
  }

  lemma {:induction false} EachIsPlaced(messages: seq<Message>)
    ensures |Built(messages).placed| == |messages|
  {
    BuiltIsFaithful(messages);
  }

  lemma {:induction false} SigningAddsNothingElse(contents: seq<Content>, signed: seq<Content>)
    requires IsSignedFrom(contents, signed)
    ensures forall at :: 0 <= at < |signed| ==> SignsAtMostTheFirstCall(contents[at], signed[at])
  {
    forall at | 0 <= at < |signed|
      ensures SignsAtMostTheFirstCall(contents[at], signed[at])
    {
      assert signed[at] == SignedTurn(contents[at]) || signed[at] == contents[at];
    }
  }

  lemma {:induction false} CallIsSigned(messages: seq<Message>, built: Folded, signed: seq<Content>, k: nat)
    requires built == Built(messages) && IsSignedFrom(built.contents, signed)
    requires k < |messages| && messages[k].ToolCall?
    ensures |built.placed| == |messages| && built.placed[k] < |signed|
    ensures SinceOpener(messages, k) ==> IsSignedAnswer(signed[built.placed[k]])
    ensures AfterOpener(built.contents, built.placed[k]) ==> SinceOpener(messages, k)
  {
    BuiltIsFaithful(messages);
    BuiltOpensTurns(messages);
    var at := built.placed[k];
    assert CarriesCalls(built.contents[at]) && WellFormed(built.contents[at]);
    if AfterOpener(built.contents, at) {
      SignedTurnIsSigned(built.contents[at]);
      LaterOpenersComeAfter(messages, built, k);
    } else if SinceOpener(messages, k) {
      JoinedAcrossTheOpener(messages, built, k);
    }
  }

  /** A call of the turn that stands before the opener's content joined a signed answer there. */
  lemma {:induction false} JoinedAcrossTheOpener(messages: seq<Message>, built: Folded, k: nat)
    requires |built.placed| == |messages| && TurnsOpen(messages, built) && JoinedSigned(messages, built)
    requires k < |messages| && messages[k].ToolCall? && SinceOpener(messages, k)
    requires built.placed[k] < |built.contents| && !Opens(built.contents[built.placed[k]])
    requires !AfterOpener(built.contents, built.placed[k])
    ensures IsSignedAnswer(built.contents[built.placed[k]])
  {
    var at :| built.placed[k] <= at < |built.contents| && Opens(built.contents[at]);
    assert OpenedBy(messages, built, at);
    var m :| 0 <= m < |messages| && OpensTurn(messages[m]) && built.placed[m] == at;
  }

  lemma {:induction false} LaterOpenersComeAfter(messages: seq<Message>, built: Folded, k: nat)
    requires Ordered(messages, built.placed) && TurnsOpen(messages, built)
    requires k < |messages| && messages[k].ToolCall?
    requires forall m :: 0 <= m < |messages| ==> built.placed[m] < |built.contents|
    ensures AfterOpener(built.contents, built.placed[k]) ==> SinceOpener(messages, k)
  {
    forall later | k <= later < |messages| && OpensTurn(messages[later])
      ensures !AfterOpener(built.contents, built.placed[k])
    {
      assert InOrder(messages[k], messages[later], built.placed[k], built.placed[later]);
      assert OpenedBy(messages, built, built.placed[later]);
    }
  }

  lemma {:induction false} SignedTurnIsSigned(content: Content)
    requires WellFormed(content) && CarriesCalls(content)
    ensures IsSignedAnswer(SignedTurn(content))
  {
    assert content.parts[0].CallPart?;
    assert FirstCall(content.parts) == 0;
  }
}
