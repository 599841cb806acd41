/**
 * Pages of a text artifact, by characters and by lines
 * (packages/core/src/runtime/artifact/artifact-page.value-object.ts).
 * Every number a caller passes is whole: the tool that asks for pages truncates it first.
 */
module ArtifactPages {
  import opened Options

  datatype Lines = Lines(from: nat, count: nat, total: nat)

  datatype Page = Page(text: string, offset: nat, total: nat, lines: Option<Lines>) {
    predicate HasMore() {
      if lines.Some? then lines.value.from - 1 + lines.value.count < lines.value.total
      else offset + |text| < total
    }

    function NextOffset(): nat {
      offset + |text|
    }

    function NextLine(): nat
      requires lines.Some?
    {
      lines.value.from + lines.value.count
    }
  }

  function Clamp(low: int, value: int, high: int): (clamped: int)
    requires low <= high
    ensures low <= clamped <= high
  {
    if value < low then low else if value > high then high else value
  }

  // ---------------------------------------------------------------- text and its lines

  /** The first line break at or after `from`. */
  function IndexOf(text: string, from: nat): (at: Option<nat>)
    requires from <= |text|
    ensures at.Some? ==> from <= at.value < |text| && text[at.value] == '\n'
    ensures at.Some? ==> forall k :: from <= k < at.value ==> text[k] != '\n'
    ensures at.None? ==> forall k :: from <= k < |text| ==> text[k] != '\n'
    decreases |text| - from
  {
    if from == |text| then None
    else if text[from] == '\n' then Some(from)
    else IndexOf(text, from + 1)
  }

  function Split(text: string): (lines: seq<string>)
    ensures lines != []
    decreases |text|
  {
    var at := IndexOf(text, 0);
    if at.None? then [text] else [text[..at.value]] + Split(text[at.value + 1..])
  }

  function Join(lines: seq<string>): string
    decreases |lines|
  {
    if lines == [] then ""
    else if |lines| == 1 then lines[0]
    else Join(lines[..|lines| - 1]) + "\n" + lines[|lines| - 1]
  }

  lemma {:induction false} JoinAppend(front: seq<string>, back: seq<string>)
    requires front != [] && back != []
    ensures Join(front + back) == Join(front) + "\n" + Join(back)
    decreases |back|
  {
    var last := |back| - 1;
    assert (front + back)[..|front + back| - 1] == front + back[..last];
    if last == 0 {
      assert front + back[..last] == front;
    } else {
      JoinAppend(front, back[..last]);
      assert Join(front + back) == Join(front) + "\n" + Join(back[..last]) + "\n" + back[last];
      assert Join(front + back) == Join(front) + "\n" + (Join(back[..last]) + "\n" + back[last]);
    }
  }

  /** Splitting loses nothing. */
  lemma {:induction false} JoinOfSplit(text: string)
    ensures Join(Split(text)) == text
    decreases |text|
  {
    var at := IndexOf(text, 0);
    if at.Some? {
      var rest := text[at.value + 1..];
      JoinOfSplit(rest);
      JoinAppend([text[..at.value]], Split(rest));
      assert text == text[..at.value] + "\n" + rest;
    }
  }

  lemma {:induction false} LinesHoldNoBreak(text: string)
    ensures forall k :: 0 <= k < |Split(text)| ==> '\n' !in Split(text)[k]
    decreases |text|
  {
    var at := IndexOf(text, 0);
    if at.Some? {
      LinesHoldNoBreak(text[at.value + 1..]);
    }
  }

  /** The lines of a text are the only ones without breaks that join to it. */
  lemma {:induction false} SplitExactly(text: string, lines: seq<string>)
    ensures Split(text) == lines
      <==> lines != [] && Join(lines) == text && forall k :: 0 <= k < |lines| ==> '\n' !in lines[k]
  {
    JoinOfSplit(text);
    LinesHoldNoBreak(text);
    if lines != [] && Join(lines) == text && forall k :: 0 <= k < |lines| ==> '\n' !in lines[k] {
      SplitOfJoin(text, lines);
    }
  }

  lemma {:induction false} SplitOfJoin(text: string, lines: seq<string>)
    requires lines != [] && Join(lines) == text && forall k :: 0 <= k < |lines| ==> '\n' !in lines[k]
    ensures Split(text) == lines
    decreases |lines|
  {
    if |lines| > 1 {
      var rest := Join(lines[1..]);
      assert lines == [lines[0]] + lines[1..];
      JoinAppend([lines[0]], lines[1..]);
      assert text == lines[0] + "\n" + rest;
      BreakEndsTheLine(text, lines[0], rest);
      SplitOfJoin(rest, lines[1..]);
    }
  }

  lemma {:induction false} BreakEndsTheLine(text: string, line: string, rest: string)
    requires text == line + "\n" + rest && '\n' !in line
    ensures Split(text) == [line] + Split(rest)
  {
    assert text[|line|] == '\n' && forall k :: 0 <= k < |line| ==> text[k] == line[k];
    assert IndexOf(text, 0) == Some(|line|);
    assert text[..|line|] == line && text[|line| + 1..] == rest;
  }

  // ---------------------------------------------------------------- where a line starts

  /** The first character of line `k`, counted from 0: after everything before it and its break. */
  function LineStart(lines: seq<string>, k: nat): nat
    requires k <= |lines|
  {
    if k == 0 then 0 else |Join(lines[..k])| + 1
  }

  lemma {:induction false} LineStartGoesOn(lines: seq<string>, k: nat)
    requires k < |lines|
    ensures LineStart(lines, k + 1) == LineStart(lines, k) + |lines[k]| + 1
  {
    assert lines[..k + 1] == lines[..k] + [lines[k]];
    if k > 0 {
      JoinAppend(lines[..k], [lines[k]]);
    }
  }

  lemma {:induction false} JoinFrom(lines: seq<string>, k: nat)
    requires k < |lines|
    ensures var head := if k == 0 then "" else Join(lines[..k]) + "\n";
      Join(lines) == head + Join(lines[k..]) && |head| == LineStart(lines, k)
  {
    assert lines == lines[..k] + lines[k..];
    if k > 0 {
      JoinAppend(lines[..k], lines[k..]);
    }
  }

  lemma {:induction false} JoinUpTo(lines: seq<string>, end: nat)
    requires 0 < end <= |lines|
    ensures Join(lines[..end]) <= Join(lines)
  {
    if end < |lines| {
      JoinFrom(lines, end);
      assert Join(lines) == Join(lines[..end]) + ("\n" + Join(lines[end..]));
    } else {
      assert lines[..end] == lines;
    }
  }

  lemma {:induction false} SliceAt(text: string, whole: string, head: string, run: string)
    requires whole <= text && whole == head + run
    ensures text[|head|..|head| + |run|] == run
  {
    assert text[..|whole|] == whole;
    assert whole[|head|..] == run;
  }

  /** Any run of lines is the slice of the text that begins where its first line starts. */
  lemma {:induction false} RunIsASlice(lines: seq<string>, k: nat, end: nat)
    requires k < end <= |lines|
    ensures var start := LineStart(lines, k); var run := Join(lines[k..end]);
      start + |run| <= |Join(lines)| && Join(lines)[start..start + |run|] == run
  {
    var whole := lines[..end];
    JoinUpTo(lines, end);
    JoinFrom(whole, k);
    assert whole[k..] == lines[k..end] && whole[..k] == lines[..k];
    var head := if k == 0 then "" else Join(whole[..k]) + "\n";
    SliceAt(Join(lines), Join(whole), head, Join(whole[k..]));
  }

  /** Where line `fromLine` starts, or the end when there is no such line. */
  function LineOffset(text: string, fromLine: int): (offset: nat)
    ensures offset <= |text|
  {
    var lines, k := Split(text), Clamp(1, fromLine, |Split(text)| + 1) - 1;
    if k == |lines| then |text|
    else
      JoinOfSplit(text);
      RunIsASlice(lines, k, |lines|);
      LineStart(lines, k)
  }

  /** Line `line`, counted from 1, starts at an offset. */
  ghost predicate StartsAt(text: string, line: nat, offset: nat) {
    && 1 <= line <= |Split(text)| && offset <= |text|
    && Split(text[offset..]) == Split(text)[line - 1..]
    && offset == LineStart(Split(text), line - 1)
  }

  /** The loop looks breaks up in the text and never splits it, yet agrees with the split lines. */
  method ReadLineOffset(text: string, fromLine: int) returns (found: nat)
    ensures found == LineOffset(text, fromLine)
  {
    var first := if fromLine < 1 then 1 else fromLine;
    var offset: nat, line: nat := 0, 1;
    assert text[0..] == text;
    while line < first
      invariant 1 <= line <= first && StartsAt(text, line, offset)
    {
      var next := IndexOf(text, offset);
      NextStarts(text, line, offset);
      if next.None? {
        OffsetPastTheEnd(text, fromLine);
        return |text|;
      }
      offset := next.value + 1;
      line := line + 1;
    }
    OffsetOfLine(text, fromLine, line, offset);
    found := if offset < |text| then offset else |text|;
  }

  lemma {:induction false} OffsetOfLine(text: string, fromLine: int, line: nat, offset: nat)
    requires StartsAt(text, line, offset) && line == if fromLine < 1 then 1 else fromLine
    ensures LineOffset(text, fromLine) == offset
  {
  }

  lemma {:induction false} OffsetPastTheEnd(text: string, fromLine: int)
    requires fromLine > |Split(text)|
    ensures LineOffset(text, fromLine) == |text|
  {
  }

  /** The next break ends a line, and the next line starts behind it. */
  lemma {:induction false} NextStarts(text: string, line: nat, offset: nat)
    requires StartsAt(text, line, offset)
    ensures match IndexOf(text, offset)
      case None => line == |Split(text)|
      case Some(at) => StartsAt(text, line + 1, at + 1)
  {
    var lines := Split(text);
    SplitAfter(text, offset);
    LineStartGoesOn(lines, line - 1);
    var left := lines[line - 1..];
    assert left[0] == lines[line - 1] && left[1..] == lines[line..];
    var found := IndexOf(text, offset);
    if found.None? {
      assert |left| == 1;
    } else {
      assert left[0] == text[offset..found.value] && |left| > 1;
    }
  }

  /** Splitting from the middle sees the break the search from there finds. */
  lemma {:induction false} SplitAfter(text: string, offset: nat)
    requires offset <= |text|
    ensures match IndexOf(text, offset)
      case None => Split(text[offset..]) == [text[offset..]]
      case Some(at) => Split(text[offset..]) == [text[offset..at]] + Split(text[at + 1..])
  {
    var found := IndexOf(text, offset);
    if found.None? {
      WithoutBreaks(text[offset..]);
    } else {
      var at := found.value;
      assert text[offset..] == text[offset..at] + "\n" + text[at + 1..];
      BreakEndsTheLine(text[offset..], text[offset..at], text[at + 1..]);
    }
  }

  lemma {:induction false} WithoutBreaks(text: string)
    requires '\n' !in text
    ensures Split(text) == [text]
  {
  }

  // ---------------------------------------------------------------- pages by character

  function FromContent(text: string, offset: int, limit: int): (page: Page)
    ensures page.total == |text| && page.lines.None?
    ensures page.offset + |page.text| <= |text| && text[page.offset..page.offset + |page.text|] == page.text
    ensures limit >= 0 && page.HasMore() ==> |page.text| == limit
  {
    var start := Clamp(0, offset, |text|);
    var size := if limit < 0 then 0 else limit;
    var end := Clamp(start, start + size, |text|);
    Page(text[start..end], start, |text|, None)
  }

  function FromLineStart(text: string, fromLine: int, limit: int): Page {
    FromContent(text, LineOffset(text, fromLine), limit)
  }

  /** A character page anchored on a line begins with that line, or is a beginning of it. */
  lemma {:induction false} AnchoredOnItsLine(text: string, fromLine: nat, limit: nat)
    requires 1 <= fromLine <= |Split(text)|
    ensures var line := Split(text)[fromLine - 1]; var page := FromLineStart(text, fromLine, limit);
      if limit <= |line| then page.text == line[..limit] else line <= page.text
  {
    var lines, k := Split(text), fromLine - 1;
    JoinOfSplit(text);
    RunIsASlice(lines, k, k + 1);
    assert lines[k..k + 1] == [lines[k]];
    BeginsWith(text, LineOffset(text, fromLine), lines[k], limit);
  }

  lemma {:induction false} BeginsWith(text: string, start: nat, line: string, limit: nat)
    requires start + |line| <= |text| && text[start..start + |line|] == line
    ensures var page := FromContent(text, start, limit);
      if limit <= |line| then page.text == line[..limit] else line <= page.text
  {
    var page := FromContent(text, start, limit);
    if limit <= |line| {
      assert page.text == text[start..start + |line|][..limit];
    } else {
      assert page.text[..|line|] == line;
    }
  }

  /** Pages a reader gets by following the offset each one hands back, each with a limit of its own. */
  ghost predicate CharacterRun(text: string, offset: int, limits: seq<int>, pages: seq<Page>)
    decreases |pages|
  {
    && pages != [] && |limits| == |pages|
    && pages[0] == FromContent(text, offset, limits[0])
    && (if pages[0].HasMore() then CharacterRun(text, pages[0].NextOffset(), limits[1..], pages[1..])
        else |pages| == 1)
  }

  function Texts(pages: seq<Page>): (texts: seq<string>)
    ensures |texts| == |pages|
  {
    if pages == [] then [] else [pages[0].text] + Texts(pages[1..])
  }

  function Concatenated(texts: seq<string>): string {
    if texts == [] then "" else texts[0] + Concatenated(texts[1..])
  }

  /** Following the offsets ends, and what was read is the text from where the reading began. */
  lemma {:induction false} CharacterPagesReassemble(text: string, offset: nat, limits: seq<int>, pages: seq<Page>)
    requires offset <= |text| && CharacterRun(text, offset, limits, pages)
    requires forall i :: 0 <= i < |limits| ==> limits[i] >= 1
    ensures Concatenated(Texts(pages)) == text[offset..]
    ensures |pages| <= |text| - offset || |pages| == 1
    decreases |pages|
  {
    var page := pages[0];
    if page.HasMore() {
      CharacterPagesReassemble(text, page.NextOffset(), limits[1..], pages[1..]);
      assert text[offset..] == page.text + text[page.NextOffset()..];
    } else {
      assert page.text == text[offset..];
      assert Texts(pages[1..]) == [];
    }
  }

  /** The offset handed back moves on exactly when the limit leaves room for a character. */
  lemma {:induction false} OffsetMovesOnExactly(text: string, offset: int, limit: int)
    ensures var page := FromContent(text, offset, limit);
      page.HasMore() ==> (page.NextOffset() > page.offset <==> limit >= 1)
  {
  }

  // ---------------------------------------------------------------- pages by line

  /** The lines a page may take at most. */
  function Candidates(all: seq<string>, first: nat, lines: int): seq<string>
    requires 1 <= first <= |all| + 1
  {
    all[first - 1..first - 1 + Clamp(0, lines, |all| - (first - 1))]
  }

  /** As many whole lines as the limit holds; the first is taken whatever it costs. */
  ghost predicate TakesWhatFits(candidates: seq<string>, limit: int, taken: seq<string>) {
    && taken <= candidates && (taken == [] <==> candidates == [])
    && (|taken| > 1 ==> |Join(taken)| <= limit)
    && (0 < |taken| < |candidates| ==> |Join(candidates[..|taken| + 1])| > limit)
  }

  ghost predicate TakesLines(all: seq<string>, first: nat, lines: int, limit: int, page: Page)
    requires 1 <= first <= |all| + 1
  {
    var candidates := Candidates(all, first, lines);
    && page.lines.Some?
    && var count := page.lines.value.count;
    && page.lines.value == Lines(first, count, |all|) && count <= |candidates|
    && TakesWhatFits(candidates, limit, candidates[..count])
    && page.text == Join(candidates[..count])
  }

  function FirstLine(all: seq<string>, fromLine: int): nat {
    Clamp(1, fromLine, |all| + 1)
  }

  /** The page of the lines from `fromLine` on, with where they start and how many there are. */
  ghost predicate IsLinePage(text: string, fromLine: int, lines: int, limit: int, page: Page) {
    var first := FirstLine(Split(text), fromLine);
    && page.total == |text| && page.offset == LineOffset(text, first)
    && TakesLines(Split(text), first, lines, limit, page)
  }

  lemma {:induction false} JoinOneMore(lines: seq<string>, count: nat)
    requires count < |lines|
    ensures |Join(lines[..count + 1])| == |Join(lines[..count])| + |lines[count]| + (if count == 0 then 0 else 1)
  {
    assert lines[..count + 1][..count] == lines[..count];
  }

  /** More lines take more room, and begin with fewer. */
  lemma {:induction false} JoinGrows(lines: seq<string>, few: nat, many: nat)
    requires few <= many <= |lines|
    ensures Join(lines[..few]) <= Join(lines[..many])
    ensures 1 <= few < many ==> |Join(lines[..few])| < |Join(lines[..many])|
    decreases many
  {
    if few < many {
      JoinGrows(lines, few, many - 1);
      JoinOneMore(lines, many - 1);
      assert lines[..many][..many - 1] == lines[..many - 1];
    }
  }

  /** How many lines a page takes once it has taken `at` of them. */
  function Taking(candidates: seq<string>, limit: int, at: nat): (count: nat)
    requires at <= |candidates|
    ensures at <= count <= |candidates|
    decreases |candidates| - at
  {
    if at == |candidates| || (at > 0 && |Join(candidates[..at + 1])| > limit) then at
    else Taking(candidates, limit, at + 1)
  }

  lemma {:induction false} TakingTakesWhatFits(candidates: seq<string>, limit: int, at: nat)
    requires at <= |candidates| && (at > 1 ==> |Join(candidates[..at])| <= limit)
    ensures TakesWhatFits(candidates, limit, candidates[..Taking(candidates, limit, at)])
    decreases |candidates| - at
  {
    if at < |candidates| && (at == 0 || |Join(candidates[..at + 1])| <= limit) {
      TakingTakesWhatFits(candidates, limit, at + 1);
    }
  }

  /** Only one number of lines is what fits. */
  lemma {:induction false} WhatFitsIsDetermined(candidates: seq<string>, limit: int, one: seq<string>, other: seq<string>)
    requires TakesWhatFits(candidates, limit, one) && TakesWhatFits(candidates, limit, other)
    ensures one == other
  {
    assert one == candidates[..|one|] && other == candidates[..|other|];
    if |one| < |other| {
      JoinGrows(candidates, |one| + 1, |other|);
    } else if |other| < |one| {
      JoinGrows(candidates, |other| + 1, |one|);
    }
  }

  /** The page that takes what fits. */
  function LinePage(text: string, fromLine: int, lines: int, limit: int): Page {
    var all := Split(text);
    var first := FirstLine(all, fromLine);
    var candidates := Candidates(all, first, lines);
    var count := Taking(candidates, limit, 0);
    Page(Join(candidates[..count]), LineOffset(text, first), |text|, Some(Lines(first, count, |all|)))
  }

  lemma {:induction false} LinePageExactly(text: string, fromLine: int, lines: int, limit: int, page: Page)
    ensures IsLinePage(text, fromLine, lines, limit, page) <==> page == LinePage(text, fromLine, lines, limit)
  {
    var all := Split(text);
    var candidates := Candidates(all, FirstLine(all, fromLine), lines);
    TakingTakesWhatFits(candidates, limit, 0);
    if IsLinePage(text, fromLine, lines, limit, page) {
      WhatFitsIsDetermined(candidates, limit, candidates[..page.lines.value.count], candidates[..Taking(candidates, limit, 0)]);
    }
  }

  method TakeLines(candidates: seq<string>, limit: int) returns (taken: seq<string>)
    ensures TakesWhatFits(candidates, limit, taken)
  {
    var spent := 0;
    taken := [];
    for at := 0 to |candidates|
      invariant taken == candidates[..at] && spent == |Join(taken)|
      invariant at > 1 ==> spent <= limit
    {
      var cost := |candidates[at]| + if |taken| == 0 then 0 else 1;
      JoinOneMore(candidates, at);
      if |taken| > 0 && spent + cost > limit {
        return;
      }
      taken := taken + [candidates[at]];
      spent := spent + cost;
    }
  }

  method FromLines(text: string, fromLine: int, lines: int, limit: int) returns (page: Page)
    ensures IsLinePage(text, fromLine, lines, limit, page) && page == LinePage(text, fromLine, lines, limit)
  {
    var all := Split(text);
    var first := FirstLine(all, fromLine);
    var candidates := Candidates(all, first, lines);
    var taken := TakeLines(candidates, limit);
    var offset := ReadLineOffset(text, first);
    assert taken == candidates[..|taken|];
    page := Page(Join(taken), offset, |text|, Some(Lines(first, |taken|, |all|)));
    LinePageExactly(text, fromLine, lines, limit, page);
  }

  lemma {:induction false} TakenLines(all: seq<string>, first: nat, lines: int, limit: int, page: Page)
    requires 1 <= first <= |all| + 1 && TakesLines(all, first, lines, limit, page)
    ensures first <= page.NextLine() <= |all| + 1 && page.text == Join(all[first - 1..page.NextLine() - 1])
    ensures page.NextLine() > first <==> lines >= 1 && first <= |all|
  {
    var count := page.lines.value.count;
    assert Candidates(all, first, lines)[..count] == all[first - 1..first - 1 + count];
  }

  lemma {:induction false} LinesAreASlice(text: string, first: nat, next: nat, offset: nat, run: string)
    requires 1 <= first <= next <= |Split(text)| + 1
    requires offset == LineOffset(text, first) && run == Join(Split(text)[first - 1..next - 1])
    ensures offset + |run| <= |text| && text[offset..offset + |run|] == run
  {
    if first < next {
      JoinOfSplit(text);
      RunIsASlice(Split(text), first - 1, next - 1);
    }
  }

  /** The text of a line page is the slice of the artifact at the offset the page reports. */
  lemma {:induction false} LinePageIsASlice(text: string, fromLine: int, lines: int, limit: int, page: Page)
    requires IsLinePage(text, fromLine, lines, limit, page)
    ensures page.offset + |page.text| <= |text| && text[page.offset..page.offset + |page.text|] == page.text
  {
    var first := FirstLine(Split(text), fromLine);
    TakenLines(Split(text), first, lines, limit, page);
    LinesAreASlice(text, first, page.NextLine(), page.offset, page.text);
  }

  ghost predicate LineRun(text: string, fromLine: int, asked: seq<(int, int)>, pages: seq<Page>)
    decreases |pages|
  {
    && pages != [] && |asked| == |pages|
    && IsLinePage(text, fromLine, asked[0].0, asked[0].1, pages[0])
    && (if pages[0].HasMore() then LineRun(text, pages[0].NextLine(), asked[1..], pages[1..])
        else |pages| == 1)
  }

  /** Pages that hold, one after the other, all the lines after the first `from`. */
  ghost predicate Covers(all: seq<string>, from: nat, pages: seq<Page>)
    decreases |pages|
  {
    && pages != [] && pages[0].lines.Some?
    && var next := pages[0].NextLine() - 1;
    && from < next <= |all| && pages[0].text == Join(all[from..next])
    && (if next < |all| then Covers(all, next, pages[1..]) else |pages| == 1)
  }

  lemma {:induction false} LineRunOpens(text: string, fromLine: nat, asked: seq<(int, int)>, pages: seq<Page>)
    requires 1 <= fromLine <= |Split(text)| && LineRun(text, fromLine, asked, pages) && asked[0].0 >= 1
    ensures pages[0].lines.Some? && fromLine < pages[0].NextLine() <= |Split(text)| + 1
    ensures pages[0].text == Join(Split(text)[fromLine - 1..pages[0].NextLine() - 1])
    ensures pages[0].HasMore() <==> pages[0].NextLine() <= |Split(text)|
  {
    TakenLines(Split(text), fromLine, asked[0].0, asked[0].1, pages[0]);
  }

  lemma {:induction false} RunCovers(text: string, fromLine: nat, asked: seq<(int, int)>, pages: seq<Page>)
    requires 1 <= fromLine <= |Split(text)| && LineRun(text, fromLine, asked, pages)
    requires forall i :: 0 <= i < |asked| ==> asked[i].0 >= 1
    ensures Covers(Split(text), fromLine - 1, pages)
    decreases |pages|
  {
    LineRunOpens(text, fromLine, asked, pages);
    if pages[0].HasMore() {
      RunCovers(text, pages[0].NextLine(), asked[1..], pages[1..]);
    }
  }

  lemma {:induction false} OnePageMore(all: seq<string>, from: nat, next: nat, pages: seq<Page>)
    requires from < next < |all| && |pages| > 1 && pages[0].text == Join(all[from..next])
    requires Join(Texts(pages[1..])) == Join(all[next..])
    ensures Join(Texts(pages)) == Join(all[from..])
  {
    JoinAppend([pages[0].text], Texts(pages[1..]));
    assert all[from..] == all[from..next] + all[next..];
    JoinAppend(all[from..next], all[next..]);
  }

  lemma {:induction false} CoveringPagesJoin(all: seq<string>, from: nat, pages: seq<Page>)
    requires from < |all| && Covers(all, from, pages)
    ensures Join(Texts(pages)) == Join(all[from..]) && |pages| <= |all| - from
    decreases |pages|
  {
    var next := pages[0].NextLine() - 1;
    if next < |all| {
      CoveringPagesJoin(all, next, pages[1..]);
      OnePageMore(all, from, next, pages);
    } else {
      assert all[from..] == all[from..next];
      assert Texts(pages) == [pages[0].text];
    }
  }

  /**
   * Following the lines ends, and joining the pages gives the text from the first line read, whatever
   * limits the pages were cut to.
   */
  lemma {:induction false} LinePagesReassemble(text: string, fromLine: nat, asked: seq<(int, int)>, pages: seq<Page>)
    requires 1 <= fromLine <= |Split(text)| && LineRun(text, fromLine, asked, pages)
    requires forall i :: 0 <= i < |asked| ==> asked[i].0 >= 1
    ensures Join(Texts(pages)) == Join(Split(text)[fromLine - 1..])
    ensures |pages| <= |Split(text)| - (fromLine - 1)
  {
    RunCovers(text, fromLine, asked, pages);
    CoveringPagesJoin(Split(text), fromLine - 1, pages);
  }

  /** From the first line on, that is the whole text. */
  lemma {:induction false} LinePagesAreTheText(text: string, asked: seq<(int, int)>, pages: seq<Page>)
    requires LineRun(text, 1, asked, pages) && forall i :: 0 <= i < |asked| ==> asked[i].0 >= 1
    ensures Join(Texts(pages)) == text && |pages| <= |Split(text)|
  {
    LinePagesReassemble(text, 1, asked, pages);
    JoinOfSplit(text);
    assert Split(text)[0..] == Split(text);
  }

  /** The line handed back moves on exactly when at least one line was asked for. */
  lemma {:induction false} LineMovesOnExactly(text: string, fromLine: int, lines: int, limit: int, page: Page)
    requires IsLinePage(text, fromLine, lines, limit, page) && page.HasMore()
    ensures page.NextLine() > page.lines.value.from <==> lines >= 1
  {
    TakenLines(Split(text), FirstLine(Split(text), fromLine), lines, limit, page);
  }
}
