/**
 * Shrinking a page of an artifact until the answer that carries it fits the budget
 * (packages/core/src/runtime/artifact/read-artifact.tool.ts).
 */
module ReadArtifacts {
  import opened Decimals
  import opened ArtifactPages
  import opened ArtifactBudgets

  /** How a page of some size is built, and what the answer that carries it costs. */
  datatype Reading = Reading(build: int -> Page, measure: Page -> int, characters: int) {
    predicate Fits(page: Page) {
      measure(page) <= characters
    }

    /** The room the next page is built for: this page, less what the answer is over by. */
    function NextRoom(page: Page): int {
      var room := |page.text| - (measure(page) - characters);
      if room < 0 then 0 else room
    }

    /** Every page but the last was over the budget, and every page is shorter than the one before. */
    ghost predicate Shrinks(rooms: seq<int>) {
      && rooms != []
      && forall i :: 0 <= i < |rooms| - 1 ==>
        var page := build(rooms[i]);
        !Fits(page) && rooms[i + 1] == NextRoom(page) && |build(rooms[i + 1]).text| < |page.text|
    }

    lemma {:induction false} Shrank(rooms: seq<int>, i: nat)
      requires Shrinks(rooms) && i < |rooms| - 1
      ensures var page := build(rooms[i]);
        !Fits(page) && rooms[i + 1] == NextRoom(page) && |build(rooms[i + 1]).text| < |page.text|
    {
    }

    /** It fits, or building it smaller would not make it shorter. */
    ghost predicate Settled(page: Page) {
      Fits(page) || |build(NextRoom(page)).text| >= |page.text|
    }
  }

  lemma {:induction false} ShrinksOnceMore(reading: Reading, rooms: seq<int>, next: int)
    requires reading.Shrinks(rooms)
    requires var page := reading.build(rooms[|rooms| - 1]);
      !reading.Fits(page) && next == reading.NextRoom(page) && |reading.build(next).text| < |page.text|
    ensures reading.Shrinks(rooms + [next])
  {
    var more := rooms + [next];
    forall i | 0 <= i < |more| - 1
      ensures var page := reading.build(more[i]);
        !reading.Fits(page) && more[i + 1] == reading.NextRoom(page) && |reading.build(more[i + 1]).text| < |page.text|
    {
      assert more[i] == rooms[i] && (i < |rooms| - 1 ==> more[i + 1] == rooms[i + 1]);
    }
  }

  /** What the loop answers: the page it ends with, having started from the limit. */
  ghost predicate IsFitted(reading: Reading, limit: int, page: Page) {
    reading.Settled(page)
    && exists rooms :: reading.Shrinks(rooms) && rooms[0] == limit && page == reading.build(rooms[|rooms| - 1])
  }

  method Fit(reading: Reading, limit: int) returns (page: Page)
    ensures IsFitted(reading, limit, page)
  {
    page := reading.build(limit);
    ghost var rooms := [limit];
    while !reading.Fits(page)
      invariant reading.Shrinks(rooms) && rooms[0] == limit && page == reading.build(rooms[|rooms| - 1])
      decreases |page.text|
    {
      var smaller := reading.build(reading.NextRoom(page));
      if |smaller.text| >= |page.text| {
        return;
      }
      ShrinksOnceMore(reading, rooms, reading.NextRoom(page));
      rooms := rooms + [reading.NextRoom(page)];
      page := smaller;
    }
  }

  // ---------------------------------------------------------------- pages by character

  const NEXT_OFFSET := ",\"nextOffset\":"

  /** The answer around the text of a page: what never changes, whether more is left, and where it goes on. */
  function FrameSize(fixed: nat, page: Page): nat {
    fixed + if page.HasMore() then 4 + |NEXT_OFFSET| + |Digits(page.NextOffset())| else 5
  }

  function ByCharacter(text: string, offset: int, fixed: nat, characters: int): Reading {
    Reading(room => FromContent(text, offset, room),
            page => FrameSize(fixed, page) + |Escaped(page.text)|,
            characters)
  }

  /** What a page is measured at is the length of the answer that carries it, written as JSON around the page. */
  lemma {:induction false} MeasuresTheAnswer(text: string, offset: int, around: string, characters: int, page: Page)
    ensures var more :=
        if page.HasMore() then "true,\"nextOffset\":" + Digits(page.offset + |page.text|) else "false";
      ByCharacter(text, offset, |around|, characters).measure(page) == |around + Escaped(page.text) + more|
  {
    assert |"true,\"nextOffset\":"| == 4 + |NEXT_OFFSET|;
  }

  /** A character page ends fitting, or empty. */
  lemma {:induction false} SettledFitsOrIsEmpty(text: string, offset: int, fixed: nat, characters: int, room: int)
    ensures var reading := ByCharacter(text, offset, fixed, characters); var page := reading.build(room);
      reading.Settled(page) <==> reading.Fits(page) || page.text == ""
  {
  }

  lemma {:induction false} ShorterPage(text: string, offset: int, room: int, smaller: int)
    requires |FromContent(text, offset, smaller).text| < |FromContent(text, offset, room).text|
    ensures var page, next := FromContent(text, offset, room), FromContent(text, offset, smaller);
      next.HasMore() && next.text == page.text[..|next.text|] && next.NextOffset() < page.NextOffset()
      && (smaller >= 0 ==> |next.text| == smaller)
  {
    var page, next := FromContent(text, offset, room), FromContent(text, offset, smaller);
    assert next.offset == page.offset;
    assert text[page.offset..page.offset + |page.text|][..|next.text|] == text[page.offset..page.offset + |next.text|];
  }

  /** Each page is a beginning of the one before, shorter by exactly what that one cost too much, or empty. */
  lemma {:induction false} ShrinksByTheExcess(
    text: string, offset: int, fixed: nat, characters: int, rooms: seq<int>, i: nat)
    requires ByCharacter(text, offset, fixed, characters).Shrinks(rooms) && i < |rooms| - 1
    ensures var page, next := FromContent(text, offset, rooms[i]), FromContent(text, offset, rooms[i + 1]);
      var excess := FrameSize(fixed, page) + |Escaped(page.text)| - characters;
      && excess > 0
      && |next.text| == (if |page.text| > excess then |page.text| - excess else 0)
      && next.text == page.text[..|next.text|]
  {
    ByCharacter(text, offset, fixed, characters).Shrank(rooms, i);
    ShorterPage(text, offset, rooms[i], rooms[i + 1]);
  }

  /** With more left after it, a page that is over the budget fits once shrunk, unless nothing is left of it. */
  lemma {:induction false} OneShrinkIsEnough(text: string, offset: int, fixed: nat, characters: int, room: int)
    requires var reading := ByCharacter(text, offset, fixed, characters); var page := reading.build(room);
      page.HasMore() && !reading.Fits(page) && reading.NextRoom(page) > 0
    ensures var reading := ByCharacter(text, offset, fixed, characters);
      reading.Fits(reading.build(reading.NextRoom(reading.build(room))))
  {
    var reading := ByCharacter(text, offset, fixed, characters);
    var page := FromContent(text, offset, room);
    var next := FromContent(text, offset, reading.NextRoom(page));
    ShorterPage(text, offset, room, reading.NextRoom(page));
    EscapedGrows(page.text, |next.text|);
    DigitsGrow(next.NextOffset(), page.NextOffset());
  }

  /** No page by characters is built more than three times, whatever the text and the budget. */
  lemma {:induction false} AtMostTwoShrinks(text: string, offset: int, fixed: nat, characters: int, rooms: seq<int>)
    requires ByCharacter(text, offset, fixed, characters).Shrinks(rooms)
    ensures |rooms| <= 3
  {
    var reading := ByCharacter(text, offset, fixed, characters);
    if |rooms| > 3 {
      ShorterPage(text, offset, rooms[0], rooms[1]);
      ShorterPage(text, offset, rooms[2], rooms[3]);
      OneShrinkIsEnough(text, offset, fixed, characters, rooms[1]);
    }
  }

  /** The escapes of a page alone take all the room beside its frame. */
  predicate Smothered(reading: Reading, fixed: nat, page: Page) {
    |Escaped(page.text)| - |page.text| >= reading.characters - FrameSize(fixed, page)
  }

  /** A page with text is smothered exactly when it is over the budget and no room is left for another. */
  lemma {:induction false} SmotheredExactly(text: string, offset: int, fixed: nat, characters: int, room: int)
    ensures var reading := ByCharacter(text, offset, fixed, characters); var page := reading.build(room);
      page.text != "" ==> (Smothered(reading, fixed, page) <==> !reading.Fits(page) && reading.NextRoom(page) == 0)
  {
  }

  /**
   * The loop answers an empty page exactly when the first page is empty, or the escapes of the first
   * page over the budget, or of the second, take all the room.
   */
  lemma {:induction false} EmptiedExactly(text: string, offset: int, fixed: nat, characters: int, limit: int, page: Page)
    requires IsFitted(ByCharacter(text, offset, fixed, characters), limit, page)
    ensures var reading := ByCharacter(text, offset, fixed, characters);
      var first := reading.build(limit);
      var second := reading.build(reading.NextRoom(first));
      var late := !reading.Fits(first) && Smothered(reading, fixed, second);
      page.text == "" <==> first.text == "" || Smothered(reading, fixed, first) || late
  {
    var reading := ByCharacter(text, offset, fixed, characters);
    var rooms :| reading.Shrinks(rooms) && rooms[0] == limit && page == reading.build(rooms[|rooms| - 1]);
    AtMostTwoShrinks(text, offset, fixed, characters, rooms);
    SettledFitsOrIsEmpty(text, offset, fixed, characters, rooms[|rooms| - 1]);
    SmotheredExactly(text, offset, fixed, characters, limit);
    SmotheredExactly(text, offset, fixed, characters, reading.NextRoom(reading.build(limit)));
    forall i | 1 <= i < |rooms|
      ensures rooms[i] >= 0 && |reading.build(rooms[i]).text| == rooms[i]
    {
      assert rooms[i] == reading.NextRoom(reading.build(rooms[i - 1]));
      ShorterPage(text, offset, rooms[i - 1], rooms[i]);
    }
    EmptiedAlong(reading, fixed, rooms);
  }

  /** The same, of any reading whose shorter pages are as long as their rooms. */
  lemma {:induction false} EmptiedAlong(reading: Reading, fixed: nat, rooms: seq<int>)
    requires reading.Shrinks(rooms) && |rooms| <= 3
    requires forall i :: 1 <= i < |rooms| ==> rooms[i] >= 0 && |reading.build(rooms[i]).text| == rooms[i]
    requires var last := reading.build(rooms[|rooms| - 1]); reading.Fits(last) || last.text == ""
    requires var first := reading.build(rooms[0]);
      first.text != "" ==> (Smothered(reading, fixed, first) <==> !reading.Fits(first) && reading.NextRoom(first) == 0)
    requires var second := reading.build(reading.NextRoom(reading.build(rooms[0])));
      second.text != "" ==> (Smothered(reading, fixed, second) <==> !reading.Fits(second) && reading.NextRoom(second) == 0)
    ensures var first := reading.build(rooms[0]);
      var second := reading.build(reading.NextRoom(first));
      var late := !reading.Fits(first) && Smothered(reading, fixed, second);
      reading.build(rooms[|rooms| - 1]).text == "" <==> first.text == "" || Smothered(reading, fixed, first) || late
  {
    if |rooms| > 1 {
      reading.Shrank(rooms, 0);
    }
    if |rooms| > 2 {
      reading.Shrank(rooms, 1);
    }
  }

  /** When more of the text is left, only the escapes of the first page matter. */
  lemma {:induction false} EmptiedExactlyByTheFirst(
    text: string, offset: int, fixed: nat, characters: int, limit: int, page: Page)
    requires IsFitted(ByCharacter(text, offset, fixed, characters), limit, page)
    requires limit >= 1 && FromContent(text, offset, limit).HasMore()
    ensures var reading := ByCharacter(text, offset, fixed, characters);
      page.text == "" <==> Smothered(reading, fixed, reading.build(limit))
  {
    var reading := ByCharacter(text, offset, fixed, characters);
    var first := reading.build(limit);
    EmptiedExactly(text, offset, fixed, characters, limit, page);
    if !reading.Fits(first) && reading.NextRoom(first) > 0 {
      OneShrinkIsEnough(text, offset, fixed, characters, limit);
      ShorterPage(text, offset, limit, reading.NextRoom(first));
    }
  }

  /**
   * Text that is all escapes is shrunk to nothing once it has as many characters as there is room,
   * although a page of one character would have fit.
   */
  lemma {:induction false} EscapesEmptyThePage(text: string, fixed: nat, characters: int, room: nat)
    requires 1 < room < |text| && forall i :: 0 <= i < |text| ==> NeedsEscape(text[i])
    requires var frame := FrameSize(fixed, FromContent(text, 0, room)); frame + 6 <= characters <= frame + room
    ensures var reading := ByCharacter(text, 0, fixed, characters);
      && !reading.Fits(reading.build(room))
      && reading.build(reading.NextRoom(reading.build(room))).text == ""
      && reading.build(1).text != "" && reading.Fits(reading.build(1))
  {
    var page, one := FromContent(text, 0, room), FromContent(text, 0, 1);
    AllEscaped(page.text);
    ShorterPage(text, 0, room, 1);
    DigitsGrow(one.NextOffset(), page.NextOffset());
    AtMostSix(one.text[0]);
    assert one.text[..0] == "" && Escaped(one.text) == Escaped(one.text[..0]) + EscapedChar(one.text[0]);
  }

  lemma {:induction false} AtMostSix(c: char)
    ensures |EscapedChar(c)| <= 6
  {
  }

  lemma {:induction false} AllEscaped(text: string)
    requires forall i :: 0 <= i < |text| ==> NeedsEscape(text[i])
    ensures |Escaped(text)| >= 2 * |text|
    decreases |text|
  {
    if text != "" {
      AllEscaped(text[..|text| - 1]);
    }
  }

  // ---------------------------------------------------------------- pages by line

  const LINES := ",\"lines\":"
  const NEXT_LINE := ",\"nextLine\":"

  /** The answer around the lines of a page; what never changes, `fromLine` and `totalLines` included, is `fixed`. */
  function LineFrameSize(fixed: nat, page: Page): nat {
    if page.lines.None? then FrameSize(fixed, page)
    else
      fixed + |LINES| + |Digits(page.lines.value.count)|
      + if page.HasMore() then 4 + |NEXT_LINE| + |Digits(page.NextLine())| else 5
  }

  function ByLine(text: string, fromLine: int, lines: int, fixed: nat, characters: int): Reading {
    Reading(room => LinePage(text, fromLine, lines, room),
            page => LineFrameSize(fixed, page) + |Escaped(page.text)|,
            characters)
  }

  /** By lines, and from the start of the first line when not even the smallest page of lines fits. */
  method ReadLines(
    text: string, fromLine: int, lines: int, fixedByLine: nat, fixed: nat, characters: int, limit: int) returns (page: Page)
    ensures var byLine := ByLine(text, fromLine, lines, fixedByLine, characters);
      if byLine.Fits(byLine.build(limit)) || byLine.Fits(byLine.build(0)) then
        page.lines.Some? && IsFitted(byLine, limit, page) && byLine.Fits(page)
      else IsFitted(ByCharacter(text, LineOffset(text, fromLine), fixed, characters), limit, page)
  {
    var byLine := ByLine(text, fromLine, lines, fixedByLine, characters);
    page := Fit(byLine, limit);
    LinesFitExactly(text, fromLine, lines, fixedByLine, characters, limit, page);
    if byLine.Fits(page) {
      return;
    }
    var offset := ReadLineOffset(text, fromLine);
    page := Fit(ByCharacter(text, offset, fixed, characters), limit);
  }

  /** What two pages of the same lines have to do with each other. */
  lemma {:induction false} FewerLines(text: string, fromLine: int, lines: int, one: int, other: int)
    ensures var few, many := LinePage(text, fromLine, lines, one), LinePage(text, fromLine, lines, other);
      && (few.lines.value.count == many.lines.value.count ==> few == many)
      && (few.lines.value.count < many.lines.value.count ==>
            && few.HasMore() && few.NextLine() < many.NextLine() && few.text <= many.text
            && (few.lines.value.count > 0 ==> |few.text| < |many.text|))
  {
    var few, many := LinePage(text, fromLine, lines, one), LinePage(text, fromLine, lines, other);
    var all := Split(text);
    var candidates := Candidates(all, FirstLine(all, fromLine), lines);
    if few.lines.value.count < many.lines.value.count {
      JoinGrows(candidates, few.lines.value.count, many.lines.value.count);
    }
  }

  /** A page holds no more than its room but for its first line, and with no room just that line, if any. */
  lemma {:induction false} LinesWithin(text: string, fromLine: int, lines: int, room: int)
    ensures var page, least := LinePage(text, fromLine, lines, room), LinePage(text, fromLine, lines, 0);
      && (page.lines.value.count > 1 ==> |page.text| <= room)
      && least.lines.value.count <= 1
      && (page.lines.value.count == 0 <==> least.lines.value.count == 0)
  {
    LinePageExactly(text, fromLine, lines, room, LinePage(text, fromLine, lines, room));
    LinePageExactly(text, fromLine, lines, 0, LinePage(text, fromLine, lines, 0));
    NothingIsShortest(text, fromLine, lines);
  }

  lemma {:induction false} NothingIsShortest(text: string, fromLine: int, lines: int)
    requires IsLinePage(text, fromLine, lines, 0, LinePage(text, fromLine, lines, 0))
    ensures LinePage(text, fromLine, lines, 0).lines.value.count <= 1
  {
    var count := LinePage(text, fromLine, lines, 0).lines.value.count;
    var all := Split(text);
    var candidates := Candidates(all, FirstLine(all, fromLine), lines);
    if count > 1 {
      JoinGrows(candidates, 1, count);
    }
  }

  /** A page that goes on costs no less than the page of its first line alone. */
  lemma {:induction false} FirstLineCostsLess(text: string, fromLine: int, lines: int, fixed: nat, characters: int, room: int)
    ensures var reading := ByLine(text, fromLine, lines, fixed, characters); var page := reading.build(room);
      page.HasMore() ==> reading.measure(reading.build(0)) <= reading.measure(page)
  {
    var page, least := LinePage(text, fromLine, lines, room), LinePage(text, fromLine, lines, 0);
    LinesWithin(text, fromLine, lines, room);
    FewerLines(text, fromLine, lines, 0, room);
    if least != page && page.HasMore() {
      assert least.text == page.text[..|least.text|];
      EscapedGrows(page.text, |least.text|);
      DigitsGrow(least.lines.value.count, page.lines.value.count);
      DigitsGrow(least.NextLine(), page.NextLine());
    }
  }

  /** Where pages end in one that costs no less than the least, and is the least when it is over the budget. */
  lemma {:induction false} EndsFittingExactly(reading: Reading, rooms: seq<int>, page: Page, least: Page)
    requires reading.Shrinks(rooms) && page == reading.build(rooms[|rooms| - 1])
    requires |rooms| > 1 ==> reading.measure(least) <= reading.measure(page)
    requires !reading.Fits(page) ==> page == least
    ensures reading.Fits(page) <==> reading.Fits(reading.build(rooms[0])) || reading.Fits(least)
  {
    if |rooms| > 1 {
      reading.Shrank(rooms, 0);
    }
  }

  /** The loop ends with lines that fit exactly when those the limit holds fit, or the first of them alone does. */
  lemma {:induction false} LinesFitExactly(
    text: string, fromLine: int, lines: int, fixed: nat, characters: int, limit: int, page: Page)
    requires IsFitted(ByLine(text, fromLine, lines, fixed, characters), limit, page)
    ensures var reading := ByLine(text, fromLine, lines, fixed, characters);
      && page.lines.Some?
      && (reading.Fits(page) <==> reading.Fits(reading.build(limit)) || reading.Fits(reading.build(0)))
  {
    var reading := ByLine(text, fromLine, lines, fixed, characters);
    var rooms :| reading.Shrinks(rooms) && rooms[0] == limit && page == reading.build(rooms[|rooms| - 1]);
    LinesCostNoLess(text, fromLine, lines, fixed, characters, rooms);
    if !reading.Fits(page) {
      SettledIsOneLine(text, fromLine, lines, fixed, characters, rooms[|rooms| - 1]);
    }
    EndsFittingExactly(reading, rooms, page, reading.build(0));
  }

  lemma {:induction false} LinesCostNoLess(
    text: string, fromLine: int, lines: int, fixed: nat, characters: int, rooms: seq<int>)
    requires ByLine(text, fromLine, lines, fixed, characters).Shrinks(rooms) && |rooms| > 0
    ensures var reading := ByLine(text, fromLine, lines, fixed, characters);
      |rooms| > 1 ==> reading.measure(reading.build(0)) <= reading.measure(reading.build(rooms[|rooms| - 1]))
  {
    if |rooms| > 1 {
      ShorterLinesGoOn(text, fromLine, lines, fixed, characters, rooms, |rooms| - 1);
      FirstLineCostsLess(text, fromLine, lines, fixed, characters, rooms[|rooms| - 1]);
    }
  }

  /** Every page after the first leaves lines to read. */
  lemma {:induction false} ShorterLinesGoOn(
    text: string, fromLine: int, lines: int, fixed: nat, characters: int, rooms: seq<int>, i: nat)
    requires ByLine(text, fromLine, lines, fixed, characters).Shrinks(rooms) && 1 <= i < |rooms|
    ensures LinePage(text, fromLine, lines, rooms[i]).HasMore()
  {
    var before, page := LinePage(text, fromLine, lines, rooms[i - 1]), LinePage(text, fromLine, lines, rooms[i]);
    assert ByLine(text, fromLine, lines, fixed, characters).build(rooms[i - 1]) == before;
    assert |page.text| < |before.text|;
    FewerLines(text, fromLine, lines, rooms[i], rooms[i - 1]);
    FewerLines(text, fromLine, lines, rooms[i - 1], rooms[i]);
    LinesWithin(text, fromLine, lines, rooms[i - 1]);
  }

  /** Lines that will not shrink any further are the first alone. */
  lemma {:induction false} SettledIsOneLine(text: string, fromLine: int, lines: int, fixed: nat, characters: int, room: int)
    requires var reading := ByLine(text, fromLine, lines, fixed, characters); var page := reading.build(room);
      !reading.Fits(page) && reading.Settled(page)
    ensures LinePage(text, fromLine, lines, room) == LinePage(text, fromLine, lines, 0)
  {
    var reading := ByLine(text, fromLine, lines, fixed, characters);
    var page := LinePage(text, fromLine, lines, room);
    assert reading.build(room) == page;
    var next := reading.NextRoom(page);
    LinesWithin(text, fromLine, lines, room);
    LinesWithin(text, fromLine, lines, next);
    FewerLines(text, fromLine, lines, next, room);
    FewerLines(text, fromLine, lines, room, next);
    FewerLines(text, fromLine, lines, 0, room);
  }
}
