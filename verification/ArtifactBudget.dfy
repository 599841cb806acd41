/**
 * Keeping an answer within a budget of encoded characters: cutting one field of it
 * (packages/core/src/runtime/artifact/artifact-budget.value-object.ts), and shrinking a page until it
 * fits (packages/core/src/runtime/artifact/read-artifact.tool.ts).
 */
module ArtifactBudgets {
  // ---------------------------------------------------------------- JSON text

  function HexDigit(n: nat): char
    requires n < 16
  {
    ['0', '1', '2', '3', '4', '5', '6', '7', '8', '9', 'a', 'b', 'c', 'd', 'e', 'f'][n]
  }

  /** How a character stands inside a JSON string. */
  function EscapedChar(c: char): (escaped: string)
    ensures |escaped| >= 1 && (|escaped| == 1 <==> !NeedsEscape(c))
  {
    if c == '"' || c == '\\' then ['\\', c]
    else if c == '\n' then "\\n"
    else if c == '\r' then "\\r"
    else if c == '\t' then "\\t"
    else if c == 8 as char then "\\b"
    else if c == 12 as char then "\\f"
    else if c < ' ' then "\\u00" + [HexDigit(c as int / 16), HexDigit(c as int % 16)]
    else [c]
  }

  predicate NeedsEscape(c: char) {
    c == '"' || c == '\\' || c < ' '
  }

  function Escaped(text: string): (escaped: string)
    ensures |escaped| >= |text|
  {
    if text == "" then "" else Escaped(text[..|text| - 1]) + EscapedChar(text[|text| - 1])
  }

  /** The JSON text of a value. */
  type Json = text: string | text != "" witness "0"

  /** A field as the tools answer it: a text, a list of values, or one value, the last two encoded already. */
  datatype Content = Words(text: string) | Items(items: seq<Json>) | Value(json: Json)

  function Listed(items: seq<Json>): string {
    if items == [] then ""
    else if |items| == 1 then items[0]
    else Listed(items[..|items| - 1]) + "," + items[|items| - 1]
  }

  function Encoded(content: Content): string {
    match content
    case Words(text) => "\"" + Escaped(text) + "\""
    case Items(items) => "[" + Listed(items) + "]"
    case Value(json) => json
  }

  /** An answer: its JSON text before and after the field that may be cut. */
  datatype Answer = Answer(before: string, content: Content, after: string)

  function Rendered(answer: Answer, truncated: bool): string {
    answer.before + Encoded(answer.content) + answer.after
    + (if truncated then ",\"truncated\":true}" else ",\"truncated\":false}")
  }

  function EmptyLike(content: Content): Content {
    match content
    case Words(_) => Words("")
    case Items(_) => Items([])
    case Value(_) => Value("null")
  }

  // ---------------------------------------------------------------- cutting a field

  /** What is left of the budget once the frame and an empty field are paid for. */
  function Room(answer: Answer, characters: int): int {
    characters - |Rendered(answer.(content := EmptyLike(answer.content)), true)|
  }

  function Spend(items: seq<Json>): nat {
    if items == [] then 2 else Spend(items[..|items| - 1]) + |items[|items| - 1]| + 1
  }

  /** The longest beginning of a list whose spend stays within the room. */
  ghost predicate LongestWithin(items: seq<Json>, room: int, kept: seq<Json>) {
    && kept <= items
    && (kept != [] ==> Spend(kept) <= room)
    && (|kept| < |items| ==> Spend(items[..|kept| + 1]) > room)
  }

  ghost predicate IsCut(content: Content, room: int, cut: Content) {
    match content
    case Words(text) => cut == Words(if |text| <= room then text else if room <= 0 then "" else text[..room])
    case Items(items) => cut.Items? && if room <= 0 then cut.items == [] else LongestWithin(items, room, cut.items)
    case Value(json) => cut == Value(if 0 < room && |json| <= room then json else "null")
  }

  method CutItems(items: seq<Json>, room: int) returns (kept: seq<Json>)
    ensures LongestWithin(items, room, kept)
  {
    kept := [];
    var spent := 2;
    for next := 0 to |items|
      invariant kept == items[..next] && spent == Spend(kept) && (kept != [] ==> spent <= room)
    {
      assert items[..next + 1][..next] == items[..next];
      var cost := |items[next]| + 1;
      if spent + cost > room {
        return;
      }
      spent := spent + cost;
      kept := kept + [items[next]];
    }
  }

  method Cut(content: Content, room: int) returns (cut: Content)
    requires room > 0
    ensures IsCut(content, room, cut)
  {
    match content {
      case Words(text) =>
        cut := if |text| <= room then content else Words(text[..room]);
      case Items(items) =>
        var kept := CutItems(items, room);
        cut := Items(kept);
      case Value(json) =>
        cut := if |json| <= room then content else Value("null");
    }
  }

  method Fit(answer: Answer, characters: int) returns (fitted: Answer, truncated: bool)
    ensures IsFitted(answer, characters, fitted, truncated)
  {
    var room := Room(answer, characters);
    var cut := EmptyLike(answer.content);
    if room > 0 {
      cut := Cut(answer.content, room);
    }
    truncated := |Encoded(cut)| != |Encoded(answer.content)|;
    fitted := if truncated then answer.(content := cut) else answer;
    assert IsCut(answer.content, room, cut);
  }

  /** The answer with its field cut to the room, unless cutting changes nothing of its encoded length. */
  ghost predicate IsFitted(answer: Answer, characters: int, fitted: Answer, truncated: bool) {
    exists cut :: IsCut(answer.content, Room(answer, characters), cut)
      && (truncated <==> |Encoded(cut)| != |Encoded(answer.content)|)
      && fitted == if truncated then answer.(content := cut) else answer
  }

  // ---------------------------------------------------------------- what a fitted answer costs

  lemma {:induction false} RenderedSize(answer: Answer, truncated: bool)
    ensures |Rendered(answer, truncated)|
      == |answer.before| + |Encoded(answer.content)| + |answer.after| + if truncated then 18 else 19
  {
  }

  lemma {:induction false} ListSize(items: seq<Json>)
    ensures |Encoded(Items(items))| == if items == [] then 2 else Spend(items) - 1
    decreases |items|
  {
    if |items| == 1 {
      assert items[..0] == [];
    } else if items != [] {
      ListSize(items[..|items| - 1]);
    }
  }

  /** A longer text never has a shorter encoding, character by character. */
  lemma {:induction false} EscapedGrows(text: string, n: nat)
    requires n <= |text|
    ensures |Escaped(text)| >= |Escaped(text[..n])| + (|text| - n)
    decreases |text|
  {
    if n == |text| {
      assert text[..n] == text;
    } else {
      EscapedGrows(text[..|text| - 1], n);
      assert text[..|text| - 1][..n] == text[..n];
    }
  }

  /** What a character escapes to tells it from what any other does, whatever follows. */
  lemma {:induction false} EscapesApart(c: char, rest: string, d: char, more: string)
    requires EscapedChar(c) + rest == EscapedChar(d) + more
    ensures c == d && rest == more
  {
    var one, other := EscapedChar(c), EscapedChar(d);
    assert (one + rest)[0] == one[0] && (other + more)[0] == other[0];
    if |one| > 1 && |other| > 1 {
      assert (one + rest)[1] == one[1] && (other + more)[1] == other[1];
      if |one| == 6 && |other| == 6 {
        assert (one + rest)[4] == one[4] && (other + more)[4] == other[4];
        assert (one + rest)[5] == one[5] && (other + more)[5] == other[5];
        HexDigitsApart(c as int / 16, d as int / 16);
        HexDigitsApart(c as int % 16, d as int % 16);
      }
    }
    assert |one| == |other|;
    assert (one + rest)[|one|..] == rest && (other + more)[|other|..] == more;
  }

  lemma {:induction false} HexDigitsApart(n: nat, m: nat)
    requires n < 16 && m < 16
    ensures HexDigit(n) == HexDigit(m) ==> n == m
  {
  }

  lemma {:induction false} EscapedBoth(text: string, more: string)
    ensures Escaped(text + more) == Escaped(text) + Escaped(more)
    decreases |more|
  {
    if more == "" {
      assert text + more == text;
    } else {
      var front, last := more[..|more| - 1], more[|more| - 1];
      Associates(text, front, [last]);
      assert more == front + [last];
      EscapedBoth(text, front);
      EscapedLast(more, front, last);
      EscapedLast(text + more, text + front, last);
      Associates(Escaped(text), Escaped(front), EscapedChar(last));
    }
  }

  lemma {:induction false} Associates(first: string, middle: string, last: string)
    ensures (first + middle) + last == first + (middle + last)
    ensures "" + last == last
  {
  }

  lemma {:induction false} EscapedLast(text: string, front: string, last: char)
    requires text == front + [last]
    ensures Escaped(text) == Escaped(front) + EscapedChar(last)
  {
    assert text[..|text| - 1] == front;
  }

  lemma {:induction false} EscapedFromTheFront(text: string)
    requires text != ""
    ensures Escaped(text) == EscapedChar(text[0]) + Escaped(text[1..])
  {
    var first := [text[0]];
    assert text == first + text[1..];
    EscapedBoth(first, text[1..]);
    EscapedOne(text[0]);
  }

  lemma {:induction false} EscapedOne(c: char)
    ensures Escaped([c]) == EscapedChar(c)
  {
    EscapedLast([c], "", c);
    Associates("", "", EscapedChar(c));
  }

  /** Escaping loses nothing: different texts are written differently. */
  lemma {:induction false} EscapingLosesNothing(text: string, other: string)
    ensures Escaped(text) == Escaped(other) ==> text == other
    decreases |text|
  {
    if text != "" && other != "" && Escaped(text) == Escaped(other) {
      EscapedFromTheFront(text);
      EscapedFromTheFront(other);
      EscapesApart(text[0], Escaped(text[1..]), other[0], Escaped(other[1..]));
      EscapingLosesNothing(text[1..], other[1..]);
      assert text == [text[0]] + text[1..] && other == [other[0]] + other[1..];
    }
  }

  lemma {:induction false} EscapeFreeExactly(text: string)
    ensures |Escaped(text)| == |text| <==> forall i :: 0 <= i < |text| ==> !NeedsEscape(text[i])
    decreases |text|
  {
    if text != "" {
      var last := |text| - 1;
      EscapeFreeExactly(text[..last]);
      assert forall i :: 0 <= i < |text| && i != last ==> text[i] == text[..last][i];
      assert |Escaped(text)| == |text| <==> |Escaped(text[..last])| == last && !NeedsEscape(text[last]);
    }
  }

  lemma {:induction false} SpendGrows(items: seq<Json>, n: nat)
    requires n < |items|
    ensures Spend(items) > Spend(items[..n]) >= 2
    decreases |items|
  {
    var last := |items| - 1;
    if n < last {
      SpendGrows(items[..last], n);
      assert items[..last][..n] == items[..n];
    } else if n > 0 {
      SpendGrows(items[..last], 0);
    }
  }

  /** Exactly which fields come out within the budget. */
  ghost predicate StaysWithin(content: Content, room: int, truncated: bool) {
    if room <= 0 then room == 0 && truncated
    else match content
      case Words(text) =>
        if |text| <= room then |Escaped(text)| < room
        else forall i :: 0 <= i < room ==> !NeedsEscape(text[i])
      case _ => true
  }

  lemma {:induction false} WordsWithin(text: string, room: int, cut: string)
    requires room > 0 && cut == if |text| <= room then text else text[..room]
    ensures |text| > room ==> |Escaped(cut)| < |Escaped(text)|
    ensures |text| > room ==> (|Escaped(cut)| <= room <==> forall i :: 0 <= i < room ==> !NeedsEscape(text[i]))
  {
    if |text| > room {
      EscapedGrows(text, room);
      EscapeFreeExactly(cut);
      assert forall i :: 0 <= i < room ==> cut[i] == text[i];
    }
  }

  lemma {:induction false} ItemsWithin(items: seq<Json>, room: int, kept: seq<Json>)
    requires room > 0 && LongestWithin(items, room, kept)
    ensures |Encoded(Items(kept))| <= 2 + room - 1
    ensures kept != items ==> |Encoded(Items(kept))| < |Encoded(Items(items))|
  {
    ListSize(kept);
    ListSize(items);
    if kept != items {
      SpendGrows(items, |kept|);
      assert items[..|kept|] == kept;
    }
  }

  lemma {:induction false} CutStaysWithin(content: Content, room: int, cut: Content)
    requires room > 0 && IsCut(content, room, cut)
    ensures var truncated := |Encoded(cut)| != |Encoded(content)|;
      StaysWithin(content, room, truncated) <==>
        |Encoded(if truncated then cut else content)| - |Encoded(EmptyLike(content))| + (if truncated then 0 else 1) <= room
  {
    match content
    case Words(text) =>
      WordsWithin(text, room, cut.text);
    case Items(items) =>
      ItemsWithin(items, room, cut.items);
    case Value(json) =>
  }

  /**
   * A fitted answer keeps its frame, says whether anything was cut, and is within the budget except in
   * exactly two cases: the frame alone takes it all, or a text needs more room encoded than it was cut for.
   */
  lemma {:induction false} FitsExactly(answer: Answer, characters: int, fitted: Answer, truncated: bool)
    requires IsFitted(answer, characters, fitted, truncated)
    ensures fitted.before == answer.before && fitted.after == answer.after
    ensures !truncated ==> fitted == answer
    ensures |Rendered(fitted, truncated)| <= characters
      <==> StaysWithin(answer.content, Room(answer, characters), truncated)
  {
    var room := Room(answer, characters);
    var empty := answer.(content := EmptyLike(answer.content));
    var cut :| IsCut(answer.content, room, cut)
      && (truncated <==> |Encoded(cut)| != |Encoded(answer.content)|)
      && fitted == if truncated then answer.(content := cut) else answer;
    RenderedSize(empty, true);
    RenderedSize(fitted, truncated);
    if room > 0 {
      CutStaysWithin(answer.content, room, cut);
    } else {
      assert |Encoded(cut)| == |Encoded(empty.content)| by { NothingKept(answer.content, room, cut); }
    }
  }

  lemma {:induction false} NothingKept(content: Content, room: int, cut: Content)
    requires room <= 0 && IsCut(content, room, cut)
    ensures cut == EmptyLike(content)
  {
  }

  /** A text that exactly fills the room is left whole, and then costs one character too many. */
  lemma {:induction false} FullTextIsOneTooMany(answer: Answer, characters: int, fitted: Answer, truncated: bool)
    requires IsFitted(answer, characters, fitted, truncated) && answer.content.Words?
    requires |answer.content.text| == Room(answer, characters) > 0
    requires forall i :: 0 <= i < |answer.content.text| ==> !NeedsEscape(answer.content.text[i])
    ensures fitted == answer && |Rendered(fitted, truncated)| == characters + 1
  {
    EscapeFreeExactly(answer.content.text);
    RenderedSize(fitted, truncated);
    RenderedSize(answer.(content := EmptyLike(answer.content)), true);
  }
}
