/**
 * The greedy word wrapper of `build_document`, as a specification on word
 * groups. A "block" is the list of words one drawn line holds; the line
 * itself is `Spaced(block)`.
 */
module LineWrap {
  import opened Text

  /** A word joins the current line only if `len(line + word) < LINE_BUDGET`. */
  const LINE_BUDGET := 80

  /**
   * The blocks the wrapper emits when `cur` holds the words of the line
   * being filled and `words` are still to come: a word that fits extends
   * `cur`; one that does not flushes `cur` (even when it is empty) and
   * starts a new line with itself; at the end a non-empty `cur` is flushed.
   */
  function Pack(cur: seq<string>, words: seq<string>): seq<seq<string>>
    decreases |words|
  {
    if words == [] then
      (if cur == [] then [] else [cur])
    else if |Spaced(cur) + words[0]| < LINE_BUDGET then
      Pack(cur + [words[0]], words[1..])
    else
      [cur] + Pack([words[0]], words[1..])
  }

  /** The text drawn for each block. */
  function Lines(blocks: seq<seq<string>>): (lines: seq<string>)
    ensures |lines| == |blocks|
  {
    seq(|blocks|, i requires 0 <= i < |blocks| => Spaced(blocks[i]))
  }

  /** The body lines drawn for a section whose text splits into `words`. */
  function Wrap(words: seq<string>): seq<string> {
    Lines(Pack([], words))
  }

  /** The words of each line, read with `str.split()`. */
  function SplitEach(lines: seq<string>): (r: seq<seq<string>>)
    ensures |r| == |lines|
  {
    seq(|lines|, i requires 0 <= i < |lines| => Split(lines[i]))
  }

  /** Packing neither loses, duplicates nor reorders words. */
  lemma {:induction false} PackKeepsWords(cur: seq<string>, words: seq<string>)
    ensures Concat(Pack(cur, words)) == cur + words
    decreases |words|
  {
    if words == [] {
      if cur != [] {
        assert Concat([cur]) == cur + Concat<string>([]);
      }
    } else if |Spaced(cur) + words[0]| < LINE_BUDGET {
      PackKeepsWords(cur + [words[0]], words[1..]);
      assert (cur + [words[0]]) + words[1..] == cur + words;
    } else {
      var rest := Pack([words[0]], words[1..]);
      PackKeepsWords([words[0]], words[1..]);
      assert ([cur] + rest)[1..] == rest;
      assert [words[0]] + words[1..] == words;
    }
  }

  /** Every block packed from words consists of words. */
  lemma PackBlocksAreWords(cur: seq<string>, words: seq<string>)
    requires AllWords(cur) && AllWords(words)
    ensures forall i :: 0 <= i < |Pack(cur, words)| ==> AllWords(Pack(cur, words)[i])
  {
    var blocks := Pack(cur, words);
    PackKeepsWords(cur, words);
    forall i, j | 0 <= i < |blocks| && 0 <= j < |blocks[i]|
      ensures IsWord(blocks[i][j])
    {
      ConcatMember(blocks, i, blocks[i][j]);
    }
  }

  /**
   * Word preservation: splitting every emitted line on white space and
   * concatenating the results, in order, gives back `text.split()`.
   */
  lemma WrapPreservesWords(text: string)
    ensures Concat(SplitEach(Wrap(Split(text)))) == Split(text)
  {
    var words := Split(text);
    var blocks := Pack([], words);
    PackBlocksAreWords([], words);
    forall i | 0 <= i < |blocks|
      ensures SplitEach(Wrap(words))[i] == blocks[i]
    {
      SplitSpaced(blocks[i]);
    }
    assert SplitEach(Wrap(words)) == blocks;
    PackKeepsWords([], words);
  }

  /** A block holding two or more words fits the budget, trailing space included. */
  predicate WithinBudget(block: seq<string>) {
    |block| >= 2 ==> |Spaced(block)| <= LINE_BUDGET
  }

  lemma {:induction false} PackWithinBudget(cur: seq<string>, words: seq<string>)
    requires WithinBudget(cur)
    ensures forall i :: 0 <= i < |Pack(cur, words)| ==> WithinBudget(Pack(cur, words)[i])
    decreases |words|
  {
    if words != [] {
      if |Spaced(cur) + words[0]| < LINE_BUDGET {
        SpacedSnoc(cur, words[0]);
        PackWithinBudget(cur + [words[0]], words[1..]);
      } else {
        PackWithinBudget([words[0]], words[1..]);
      }
    }
  }

  /**
   * Line-length bound: every drawn line with two or more words is at most
   * LINE_BUDGET characters long, and a line is longer than that exactly when
   * it holds a single word of LINE_BUDGET characters or more.
   */
  lemma WrapLineLength(words: seq<string>, i: nat)
    requires i < |Wrap(words)|
    ensures |Pack([], words)[i]| >= 2 ==> |Wrap(words)[i]| <= LINE_BUDGET
    ensures |Wrap(words)[i]| > LINE_BUDGET <==>
            |Pack([], words)[i]| == 1 && |Pack([], words)[i][0]| >= LINE_BUDGET
  {
    var block := Pack([], words)[i];
    PackWithinBudget([], words);
    if |block| == 1 {
      assert Spaced(block) == block[0] + " " + Spaced([]);
    } else if block == [] {
      assert Spaced(block) == "";
    }
  }

  /** Once a line holds a word, no later block is empty. */
  lemma {:induction false} PackNonEmptyBlocks(cur: seq<string>, words: seq<string>)
    requires cur != []
    ensures forall i :: 0 <= i < |Pack(cur, words)| ==> Pack(cur, words)[i] != []
    decreases |words|
  {
    if words != [] {
      if |Spaced(cur) + words[0]| < LINE_BUDGET {
        PackNonEmptyBlocks(cur + [words[0]], words[1..]);
      } else {
        PackNonEmptyBlocks([words[0]], words[1..]);
      }
    }
  }

  /**
   * The only empty line drawn is the one flushed before a first word of
   * LINE_BUDGET characters or more; it is then the first body line.
   */
  lemma WrapEmptyLine(words: seq<string>, i: nat)
    requires i < |Wrap(words)|
    ensures Wrap(words)[i] == "" <==> i == 0 && |words[0]| >= LINE_BUDGET
  {
    var blocks := Pack([], words);
    SpacedEmpty(blocks[i]);
    assert words != [];
    assert Spaced([]) == "";
    if |words[0]| < LINE_BUDGET {
      assert [] + [words[0]] == [words[0]];
      assert blocks == Pack([words[0]], words[1..]);
      PackNonEmptyBlocks([words[0]], words[1..]);
    } else {
      assert blocks == [[]] + Pack([words[0]], words[1..]);
      PackNonEmptyBlocks([words[0]], words[1..]);
      if i > 0 {
        assert blocks[i] == Pack([words[0]], words[1..])[i - 1];
      }
    }
  }

  /**
   * Every drawn line that is not empty is its words joined by single
   * spaces with exactly one trailing space.
   */
  lemma WrapLineShape(words: seq<string>, i: nat)
    requires i < |Wrap(words)| && Wrap(words)[i] != ""
    ensures Wrap(words)[i] == Join(Pack([], words)[i], " ") + " "
  {
    SpacedEmpty(Pack([], words)[i]);
    SpacedIsJoinPlusSpace(Pack([], words)[i]);
  }

  /** With a pending line `cur`, the last block is never empty and ends with the last word. */
  lemma {:induction false} PackLast(cur: seq<string>, words: seq<string>)
    requires cur != [] || words != []
    ensures |Pack(cur, words)| > 0
    ensures var last := Pack(cur, words)[|Pack(cur, words)| - 1];
            last != [] && last[|last| - 1] == (cur + words)[|cur + words| - 1]
    decreases |words|
  {
    if words != [] {
      if |Spaced(cur) + words[0]| < LINE_BUDGET {
        PackLast(cur + [words[0]], words[1..]);
        assert (cur + [words[0]]) + words[1..] == cur + words;
      } else {
        PackLast([words[0]], words[1..]);
        assert ([words[0]] + words[1..]) == words;
      }
    }
  }

  /**
   * Empty section text draws no body line; otherwise the last body line is
   * the final flush, which is not empty and holds the last word.
   */
  lemma WrapFinalFlush(words: seq<string>)
    ensures Wrap(words) == [] <==> words == []
    ensures words != [] ==> var last := Pack([], words)[|Wrap(words)| - 1];
              last != [] && last[|last| - 1] == words[|words| - 1]
  {
    if words != [] {
      PackLast([], words);
      assert [] + words == words;
    }
  }

  /** One block per word. */
  function Singletons(words: seq<string>): (r: seq<seq<string>>)
    ensures |r| == |words|
  {
    seq(|words|, i requires 0 <= i < |words| => [words[i]])
  }

  /**
   * When no word fits the budget, the pending line is flushed, even when
   * it is empty, and every word is drawn on a line of its own.
   */
  lemma {:induction false} PackLongWords(cur: seq<string>, words: seq<string>)
    requires forall i :: 0 <= i < |words| ==> |words[i]| >= LINE_BUDGET
    ensures Pack(cur, words) == if cur == [] && words == [] then [] else [cur] + Singletons(words)
    decreases |words|
  {
    if words != [] {
      PackLongWords([words[0]], words[1..]);
      assert Singletons(words) == [[words[0]]] + Singletons(words[1..]);
    }
  }

  /**
   * A section whose words are all too long for the budget draws an empty
   * line first and then each word, with its trailing space, on a line of
   * its own.
   */
  lemma WrapLongWords(words: seq<string>)
    requires words != []
    requires forall i :: 0 <= i < |words| ==> |words[i]| >= LINE_BUDGET
    ensures Wrap(words) == [""] + seq(|words|, i requires 0 <= i < |words| => words[i] + " ")
  {
    PackLongWords([], words);
    var w := Wrap(words);
    forall i | 0 <= i < |words|
      ensures w[i + 1] == words[i] + " "
    {
      assert Spaced([words[i]]) == words[i] + " " + Spaced([]);
    }
  }

  /** A block that starts out non-empty is emitted first and keeps its first word. */
  lemma {:induction false} PackFirst(cur: seq<string>, words: seq<string>)
    requires cur != []
    ensures |Pack(cur, words)| > 0 && Pack(cur, words)[0] != [] && Pack(cur, words)[0][0] == cur[0]
    decreases |words|
  {
    if words != [] && |Spaced(cur) + words[0]| < LINE_BUDGET {
      PackFirst(cur + [words[0]], words[1..]);
    }
  }

  /**
   * Greediness: a line is flushed only when the next word does not fit,
   * that is, when the line's text plus the first word of the following
   * line reaches the budget.
   */
  lemma {:induction false} PackGreedy(cur: seq<string>, words: seq<string>, i: nat)
    requires i + 1 < |Pack(cur, words)|
    ensures Pack(cur, words)[i + 1] != []
    ensures |Spaced(Pack(cur, words)[i]) + Pack(cur, words)[i + 1][0]| >= LINE_BUDGET
    decreases |words|
  {
    if words == [] {
      // a pending line alone yields at most one block, so no i + 1 is in range
    } else if |Spaced(cur) + words[0]| < LINE_BUDGET {
      PackGreedy(cur + [words[0]], words[1..], i);
    } else {
      var rest := Pack([words[0]], words[1..]);
      assert Pack(cur, words) == [cur] + rest;
      if i == 0 {
        PackFirst([words[0]], words[1..]);
      } else {
        PackGreedy([words[0]], words[1..], i - 1);
      }
    }
  }

  /**
   * The `len(line + word) < 80` test, on the drawn lines: every line that is
   * followed by another was flushed because that next line's first word,
   * appended to it, reaches the budget.
   */
  lemma WrapGreedy(text: string, i: nat)
    requires i + 1 < |Wrap(Split(text))|
    ensures var lines := Wrap(Split(text));
            && Split(lines[i + 1]) != []
            && |lines[i] + Split(lines[i + 1])[0]| >= LINE_BUDGET
  {
    var words := Split(text);
    var blocks := Pack([], words);
    PackGreedy([], words, i);
    PackBlocksAreWords([], words);
    SplitSpaced(blocks[i + 1]);
  }
}
