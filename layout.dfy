/**
 * The drawing half of `build_document`: a title per section, the greedy
 * wrapped body lines, and a `y` cursor that starts at TOP_Y and only moves
 * down. The canvas records each `drawString(x, y, text)` as an event.
 */
module Layout {
  import opened Text
  import opened LineWrap

  const LEFT_MARGIN := 50
  const TOP_Y := 800
  /** Drop after a section title. */
  const TITLE_GAP := 20
  /** Drop after each line flushed inside the word loop. */
  const LINE_GAP := 15
  /** Drop after each section. */
  const SECTION_GAP := 30

  datatype DrawEvent = Draw(x: int, y: int, text: string)

  /** A PDF canvas, reduced to the sequence of strings drawn on it. */
  class Canvas {
    const path: string
    var events: seq<DrawEvent>

    constructor (path: string)
      ensures this.path == path && events == []
    {
      this.path := path;
      events := [];
    }

    method DrawString(x: int, y: int, text: string)
      modifies this
      ensures events == old(events) + [Draw(x, y, text)]
    {
      events := events + [Draw(x, y, text)];
    }
  }

  /** `section.replace("_", " ").upper()`. */
  function Title(key: string): (r: string)
    ensures |r| == |key| && '_' !in r
    ensures forall i :: 0 <= i < |r| ==> !IsLowerAscii(r[i])
    ensures forall i :: 0 <= i < |r| ==>
              r[i] == if key[i] == '_' then ' ' else if IsLowerAscii(key[i]) then (key[i] as int - 32) as char else key[i]
  {
    UpperAscii(ReplaceChar(key, '_', ' '))
  }

  /** The `i`-th body line is drawn LINE_GAP * i below the first one. */
  function BodyEvents(y: int, lines: seq<string>): (r: seq<DrawEvent>)
    ensures |r| == |lines|
    decreases |lines|
  {
    if lines == [] then [] else [Draw(LEFT_MARGIN, y, lines[0])] + BodyEvents(y - LINE_GAP, lines[1..])
  }

  lemma {:induction false} BodyEventsAt(y: int, lines: seq<string>, i: nat)
    requires i < |lines|
    ensures BodyEvents(y, lines)[i] == Draw(LEFT_MARGIN, y - LINE_GAP * i, lines[i])
    decreases |lines|
  {
    if i > 0 {
      BodyEventsAt(y - LINE_GAP, lines[1..], i - 1);
    }
  }

  /** Flushes done inside the word loop: every drawn body line but the final flush. */
  function InLoopFlushes(words: seq<string>): int {
    if words == [] then 0 else |Wrap(words)| - 1
  }

  /** How far the cursor moves down while one section is laid out. */
  function SectionDrop(text: string): int {
    TITLE_GAP + LINE_GAP * InLoopFlushes(Split(text)) + SECTION_GAP
  }

  /** The strings drawn for one section whose title line is at `y`. */
  function SectionEvents(y: int, key: string, text: string): seq<DrawEvent> {
    [Draw(LEFT_MARGIN, y, Title(key))] + BodyEvents(y - TITLE_GAP, Wrap(Split(text)))
  }

  /** The strings drawn for the `(key, text)` sections, the first title at `y`. */
  function DocumentEvents(y: int, sections: seq<(string, string)>): seq<DrawEvent>
    decreases |sections|
  {
    if sections == [] then []
    else SectionEvents(y, sections[0].0, sections[0].1)
         + DocumentEvents(y - SectionDrop(sections[0].1), sections[1..])
  }

  /** The cursor after laying out `sections` from `y`. */
  function DocumentEnd(y: int, sections: seq<(string, string)>): int
    decreases |sections|
  {
    if sections == [] then y
    else DocumentEnd(y - SectionDrop(sections[0].1), sections[1..])
  }

  /** The final flush is not counted as an in-loop flush, so the count is never negative. */
  lemma InLoopFlushesNat(words: seq<string>)
    ensures InLoopFlushes(words) >= 0
    ensures words != [] ==> InLoopFlushes(words) == |Wrap(words)| - 1
  {
    WrapFinalFlush(words);
  }

  /** Strings drawn at strictly decreasing heights, none above `y`. */
  predicate DescendsFrom(ev: seq<DrawEvent>, y: int) {
    && (forall i :: 0 <= i < |ev| ==> ev[i].y <= y)
    && (forall i, j :: 0 <= i < j < |ev| ==> ev[i].y > ev[j].y)
  }

  /**
   * Within a section the cursor only goes down: the title is at `y`, each
   * body line below the previous one, and the next section starts below
   * all of them.
   */
  lemma SectionDescends(y: int, key: string, text: string)
    ensures var ev := SectionEvents(y, key, text);
            && ev[0].y == y
            && (forall i, j :: 0 <= i < j < |ev| ==> ev[i].y > ev[j].y)
            && (forall i :: 0 <= i < |ev| ==> y - SectionDrop(text) < ev[i].y <= y)
  {
    var words := Split(text);
    var ev := SectionEvents(y, key, text);
    var body := BodyEvents(y - TITLE_GAP, Wrap(words));
    InLoopFlushesNat(words);
    WrapFinalFlush(words);
    forall i | 1 <= i < |ev|
      ensures ev[i].y == y - TITLE_GAP - LINE_GAP * (i - 1)
    {
      assert ev[i] == body[i - 1];
      BodyEventsAt(y - TITLE_GAP, Wrap(words), i - 1);
    }
  }

  /**
   * Over the whole document the cursor only goes down: the strings are
   * drawn at strictly decreasing heights, all at or below the starting `y`.
   * There is no page break, so nothing ever moves the cursor back up.
   */
  lemma {:induction false} DocumentDescends(y: int, sections: seq<(string, string)>)
    ensures DescendsFrom(DocumentEvents(y, sections), y)
    decreases |sections|
  {
    if sections != [] {
      var key, text := sections[0].0, sections[0].1;
      var next := y - SectionDrop(text);
      SectionDescends(y, key, text);
      DocumentDescends(next, sections[1..]);
      DescendsConcat(SectionEvents(y, key, text), DocumentEvents(next, sections[1..]), y, next);
    }
  }

  /** Draw calls that descend from `y`, all above `next`, followed by draw calls descending from `next`. */
  lemma DescendsConcat(head: seq<DrawEvent>, tail: seq<DrawEvent>, y: int, next: int)
    requires DescendsFrom(head, y) && DescendsFrom(tail, next) && next < y
    requires forall i :: 0 <= i < |head| ==> head[i].y > next
    ensures DescendsFrom(head + tail, y)
  {
    var ev := head + tail;
    forall i | 0 <= i < |ev|
      ensures ev[i].y <= y && (i >= |head| ==> ev[i].y <= next)
    {
      if i >= |head| {
        assert ev[i] == tail[i - |head|];
      } else {
        assert ev[i] == head[i];
      }
    }
  }


  /**
   * No page break: a section whose text holds 53 or more words, each of
   * LINE_BUDGET characters or more, draws its last line below the bottom
   * of the page (a negative `y`) when laid out from TOP_Y.
   */
  lemma NoPageBreak(key: string, text: string)
    requires |Split(text)| >= 53
    requires forall i :: 0 <= i < |Split(text)| ==> |Split(text)[i]| >= LINE_BUDGET
    ensures var ev := DocumentEvents(TOP_Y, [(key, text)]);
            |ev| > 0 && ev[|ev| - 1].y < 0
  {
    var words := Split(text);
    PackLongWords([], words);
    var ev := DocumentEvents(TOP_Y, [(key, text)]);
    assert [(key, text)][1..] == [];
    assert DocumentEvents(TOP_Y - SectionDrop(text), []) == [];
    assert ev == SectionEvents(TOP_Y, key, text) + [];
    assert |Wrap(words)| == |words| + 1;
    assert ev[|ev| - 1] == BodyEvents(TOP_Y - TITLE_GAP, Wrap(words))[|words|];
    BodyEventsAt(TOP_Y - TITLE_GAP, Wrap(words), |words|);
  }

  /** Drawing one more block's line appends one event, LINE_GAP below the previous line. */
  lemma BodyLinesSnoc(y: int, blocks: seq<seq<string>>, block: seq<string>)
    ensures BodyEvents(y, Lines(blocks + [block]))
         == BodyEvents(y, Lines(blocks)) + [Draw(LEFT_MARGIN, y - LINE_GAP * |blocks|, Spaced(block))]
  {
    assert Lines(blocks + [block]) == Lines(blocks) + [Spaced(block)];
    BodyEventsSnoc(y, Lines(blocks), Spaced(block));
  }

  lemma {:induction false} BodyEventsSnoc(y: int, lines: seq<string>, line: string)
    ensures BodyEvents(y, lines + [line]) == BodyEvents(y, lines) + [Draw(LEFT_MARGIN, y - LINE_GAP * |lines|, line)]
    decreases |lines|
  {
    if lines == [] {
      assert BodyEvents(y - LINE_GAP, []) == [];
    } else {
      assert (lines + [line])[1..] == lines[1..] + [line];
      BodyEventsSnoc(y - LINE_GAP, lines[1..], line);
    }
  }

  lemma SpacedSingle(w: string)
    ensures Spaced([w]) == w + " "
  {
    assert Spaced([w]) == w + " " + Spaced([]);
  }

  lemma AppendAssoc<T>(a: seq<T>, b: seq<T>, c: seq<T>)
    ensures (a + b) + c == a + (b + c)
  {
  }

  /** One step of the section loop, on the specification. */
  lemma DocumentStep(y: int, sections: seq<(string, string)>, i: nat)
    requires i < |sections|
    ensures DocumentEvents(y, sections[i..])
         == SectionEvents(y, sections[i].0, sections[i].1)
            + DocumentEvents(y - SectionDrop(sections[i].1), sections[i + 1..])
    ensures DocumentEnd(y, sections[i..]) == DocumentEnd(y - SectionDrop(sections[i].1), sections[i + 1..])
  {
    assert sections[i..][0] == sections[i] && sections[i..][1..] == sections[i + 1..];
  }

  /** One step of the word loop, on the specification: the word either joins `cur` or flushes it. */
  lemma PackStep(cur: seq<string>, words: seq<string>, i: nat)
    requires i < |words|
    ensures |Spaced(cur) + words[i]| < LINE_BUDGET ==>
            Pack(cur, words[i..]) == Pack(cur + [words[i]], words[i + 1..])
    ensures !(|Spaced(cur) + words[i]| < LINE_BUDGET) ==>
            Pack(cur, words[i..]) == [cur] + Pack([words[i]], words[i + 1..])
  {
    assert words[i..][0] == words[i] && words[i..][1..] == words[i + 1..];
  }

  /**
   * Lays out one section as the loop body of `build_document` does:
   * draws the title, drops TITLE_GAP, draws the wrapped text, and drops
   * SECTION_GAP.
   */
  method LayOutSection(c: Canvas, y: int, key: string, text: string) returns (y': int)
    modifies c
    ensures c.events == old(c.events) + SectionEvents(y, key, text)
    ensures y' == y - SectionDrop(text)
  {
    ghost var before := c.events;
    var title := Title(key);
    var words := Split(text);
    c.DrawString(LEFT_MARGIN, y, title);
    y' := DrawWords(c, y - TITLE_GAP, words);
    AppendAssoc(before, [Draw(LEFT_MARGIN, y, title)], BodyEvents(y - TITLE_GAP, Wrap(words)));
    y' := y' - SECTION_GAP;
  }

  /**
   * The word loop of `build_document`: packs the words greedily into
   * `line`, drawing it at the cursor and dropping LINE_GAP whenever the
   * next word does not fit, then draws what is left without a drop.
   */
  method DrawWords(c: Canvas, y: int, words: seq<string>) returns (y': int)
    modifies c
    ensures c.events == old(c.events) + BodyEvents(y, Wrap(words))
    ensures y' == y - LINE_GAP * InLoopFlushes(words)
  {
    y' := y;
    var line := "";
    ghost var cur: seq<string> := [];
    ghost var done: seq<seq<string>> := [];
    for i := 0 to |words|
      invariant line == Spaced(cur)
      invariant cur == [] <==> i == 0
      invariant done + Pack(cur, words[i..]) == Pack([], words)
      invariant c.events == old(c.events) + BodyEvents(y, Lines(done))
      invariant y' == y - LINE_GAP * |done|
    {
      var word := words[i];
      PackStep(cur, words, i);
      if |line + word| < LINE_BUDGET {
        SpacedSnoc(cur, word);
        line := line + word + " ";
        cur := cur + [word];
      } else {
        c.DrawString(LEFT_MARGIN, y', line);
        BodyLinesSnoc(y, done, cur);
        AppendAssoc(old(c.events), BodyEvents(y, Lines(done)), [Draw(LEFT_MARGIN, y', line)]);
        AppendAssoc(done, [cur], Pack([word], words[i + 1..]));
        y' := y' - LINE_GAP;
        done := done + [cur];
        cur := [word];
        line := word + " ";
        SpacedSingle(word);
      }
    }
    assert words[|words|..] == [];
    SpacedEmpty(cur);
    if line != "" {
      c.DrawString(LEFT_MARGIN, y', line);
      BodyLinesSnoc(y, done, cur);
      AppendAssoc(old(c.events), BodyEvents(y, Lines(done)), [Draw(LEFT_MARGIN, y', line)]);
      done := done + [cur];
    }
    assert done == Pack([], words);
  }

  /**
   * Lays out every section in order, the first title at TOP_Y, each
   * section starting where the previous one left the cursor.
   */
  method LayOutDocument(c: Canvas, sections: seq<(string, string)>) returns (y: int)
    modifies c
    ensures c.events == old(c.events) + DocumentEvents(TOP_Y, sections)
    ensures y == DocumentEnd(TOP_Y, sections)
  {
    y := TOP_Y;
    for i := 0 to |sections|
      invariant c.events + DocumentEvents(y, sections[i..]) == old(c.events) + DocumentEvents(TOP_Y, sections)
      invariant DocumentEnd(y, sections[i..]) == DocumentEnd(TOP_Y, sections)
    {
      DocumentStep(y, sections, i);
      ghost var drawn, head, tail := c.events, SectionEvents(y, sections[i].0, sections[i].1),
        DocumentEvents(y - SectionDrop(sections[i].1), sections[i + 1..]);
      y := LayOutSection(c, y, sections[i].0, sections[i].1);
      AppendAssoc(drawn, head, tail);
    }
    assert sections[|sections|..] == [];
  }
}
