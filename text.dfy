/**
 * The string operations of Python that the proposal builder relies on:
 * `str.split()` with no separator, `sep.join(...)`, the line a greedy
 * wrapper accumulates with `line += word + " "`, `str.replace` on one
 * character and `str.upper()`.
 */
module Text {

  /** Python's `str.isspace()`: the characters `str.split()` separates on. */
  predicate IsSpace(c: char) {
    var n := c as int;
    n == 0x20 || 0x09 <= n <= 0x0D || 0x1C <= n <= 0x1F || n == 0x85 || n == 0xA0 ||
    n == 0x1680 || 0x2000 <= n <= 0x200A || n == 0x2028 || n == 0x2029 ||
    n == 0x202F || n == 0x205F || n == 0x3000
  }

  predicate NoSpace(s: string) {
    forall i :: 0 <= i < |s| ==> !IsSpace(s[i])
  }

  /** A word as `str.split()` yields it: non-empty, without white space. */
  predicate IsWord(w: string) {
    |w| > 0 && NoSpace(w)
  }

  predicate AllWords(ws: seq<string>) {
    forall i :: 0 <= i < |ws| ==> IsWord(ws[i])
  }

  /**
   * Scans `s` left to right; `word` is the run of non-space characters seen
   * since the last separator. A separator ends a non-empty run; runs of
   * separators, and separators at either end, produce nothing.
   */
  function SplitFrom(s: string, word: string): (r: seq<string>)
    requires NoSpace(word)
    ensures AllWords(r)
    decreases |s|
  {
    if s == [] then
      (if word == [] then [] else [word])
    else if IsSpace(s[0]) then
      (if word == [] then [] else [word]) + SplitFrom(s[1..], [])
    else
      SplitFrom(s[1..], word + [s[0]])
  }

  /** `s.split()`: the maximal runs of non-space characters of `s`, in order. */
  function Split(s: string): (r: seq<string>)
    ensures AllWords(r)
  {
    SplitFrom(s, [])
  }

  /** `sep.join(ws)`. */
  function Join(ws: seq<string>, sep: string): string {
    if ws == [] then ""
    else if |ws| == 1 then ws[0]
    else ws[0] + sep + Join(ws[1..], sep)
  }

  /**
   * `sep.join(ws)` ends with the last word; with two or more words, the
   * separator comes right before it, and with one word the join is that word.
   */
  lemma {:induction false} JoinEndsWithLast(ws: seq<string>, sep: string)
    requires ws != []
    ensures var j, last := Join(ws, sep), ws[|ws| - 1];
            && |last| <= |j| && j[|j| - |last|..] == last
            && (|ws| == 1 ==> j == last)
            && (|ws| > 1 ==> |last| + |sep| <= |j| && j[|j| - |last| - |sep|..|j| - |last|] == sep)
  {
    if |ws| > 1 {
      var init, last := ws[..|ws| - 1], ws[|ws| - 1];
      assert ws == init + [last];
      JoinSnoc(init, last, sep);
      var j, head := Join(ws, sep), Join(init, sep);
      assert j == head + sep + last;
      assert j[|j| - |last|..] == last;
      assert j[|j| - |last| - |sep|..|j| - |last|] == sep;
    }
  }

  /** Joining one more word appends the separator and that word. */
  lemma {:induction false} JoinSnoc(ws: seq<string>, w: string, sep: string)
    requires ws != []
    ensures Join(ws + [w], sep) == Join(ws, sep) + sep + w
  {
    assert (ws + [w])[0] == ws[0];
    assert (ws + [w])[1..] == ws[1..] + [w];
    if |ws| > 1 {
      JoinSnoc(ws[1..], w, sep);
      var rest := Join(ws[1..], sep);
      assert ws[0] + sep + (rest + sep + w) == (ws[0] + sep + rest) + sep + w;
    } else {
      assert ws[1..] + [w] == [w];
    }
  }

  /** The text of a line built by `line += word + " "` for each word of `ws`, starting from "". */
  function Spaced(ws: seq<string>): string {
    if ws == [] then "" else ws[0] + " " + Spaced(ws[1..])
  }

  /** Concatenation of a sequence of sequences, in order. */
  function Concat<T>(xss: seq<seq<T>>): seq<T> {
    if xss == [] then [] else xss[0] + Concat(xss[1..])
  }

  /** `s.replace(from, to)` for one-character `from` and `to`. */
  function ReplaceChar(s: string, from: char, to: char): (r: string)
    ensures |r| == |s|
    ensures from != to ==> from !in r
    ensures forall i :: 0 <= i < |s| && s[i] != from ==> r[i] == s[i]
    ensures forall i :: 0 <= i < |s| && s[i] == from ==> r[i] == to
  {
    seq(|s|, i requires 0 <= i < |s| => if s[i] == from then to else s[i])
  }

  predicate IsLowerAscii(c: char) {
    'a' <= c <= 'z'
  }

  /** `s.upper()` on the ASCII letters; every other character is kept. */
  function UpperAscii(s: string): (r: string)
    ensures |r| == |s|
    ensures forall i :: 0 <= i < |r| ==> !IsLowerAscii(r[i])
    ensures forall i :: 0 <= i < |s| && !IsLowerAscii(s[i]) ==> r[i] == s[i]
    ensures forall i :: 0 <= i < |s| && IsLowerAscii(s[i]) ==> r[i] as int == s[i] as int - 32
  {
    seq(|s|, i requires 0 <= i < |s| => if IsLowerAscii(s[i]) then (s[i] as int - 32) as char else s[i])
  }

  /** Appending a word to a line adds exactly that word and one space at the end. */
  lemma {:induction false} SpacedSnoc(ws: seq<string>, w: string)
    ensures Spaced(ws + [w]) == Spaced(ws) + w + " "
  {
    if ws == [] {
      assert ws + [w] == [w];
    } else {
      assert (ws + [w])[1..] == ws[1..] + [w];
      SpacedSnoc(ws[1..], w);
    }
  }

  /** A line is empty exactly when no word has been added to it. */
  lemma SpacedEmpty(ws: seq<string>)
    ensures Spaced(ws) == "" <==> ws == []
  {
    if ws != [] {
      assert |Spaced(ws)| >= 1;
    }
  }

  /** A non-empty line is its words joined by single spaces, plus exactly one trailing space. */
  lemma {:induction false} SpacedIsJoinPlusSpace(ws: seq<string>)
    requires ws != []
    ensures Spaced(ws) == Join(ws, " ") + " "
  {
    if |ws| == 1 {
      assert Spaced(ws[1..]) == "";
    } else {
      SpacedIsJoinPlusSpace(ws[1..]);
    }
  }

  /** Splitting `w + " " + rest` while a word `tok` is pending yields `tok + w` first. */
  lemma {:induction false} SplitFromWord(w: string, rest: string, tok: string)
    requires NoSpace(tok) && NoSpace(w) && |tok + w| > 0
    ensures SplitFrom(w + " " + rest, tok) == [tok + w] + SplitFrom(rest, [])
  {
    var s := w + " " + rest;
    if w == [] {
      assert s[0] == ' ' && s[1..] == rest;
      assert tok + w == tok;
    } else {
      assert s[0] == w[0] && s[1..] == w[1..] + " " + rest;
      assert (tok + [w[0]]) + w[1..] == tok + w;
      SplitFromWord(w[1..], rest, tok + [w[0]]);
    }
  }

  /** Round trip: splitting a line built from words gives back exactly those words. */
  lemma {:induction false} SplitSpaced(ws: seq<string>)
    requires AllWords(ws)
    ensures Split(Spaced(ws)) == ws
  {
    if ws != [] {
      SplitFromWord(ws[0], Spaced(ws[1..]), []);
      assert [] + ws[0] == ws[0];
      SplitSpaced(ws[1..]);
      assert [ws[0]] + ws[1..] == ws;
    }
  }

  /** The characters of `s` that are not white space, in order. */
  function NonSpaces(s: string): string {
    if s == [] then [] else (if IsSpace(s[0]) then [] else [s[0]]) + NonSpaces(s[1..])
  }

  lemma {:induction false} SplitFromKeepsNonSpaces(s: string, word: string)
    requires NoSpace(word)
    ensures Concat(SplitFrom(s, word)) == word + NonSpaces(s)
    decreases |s|
  {
    if s == [] {
      if word != [] {
        assert Concat([word]) == word + Concat([word][1..]);
      }
    } else if IsSpace(s[0]) {
      var rest := SplitFrom(s[1..], []);
      SplitFromKeepsNonSpaces(s[1..], []);
      assert NonSpaces(s) == NonSpaces(s[1..]);
      if word != [] {
        assert ([word] + rest)[1..] == rest;
        assert Concat([word] + rest) == word + Concat(rest);
      } else {
        assert [] + rest == rest;
      }
    } else {
      SplitFromKeepsNonSpaces(s[1..], word + [s[0]]);
      assert word + [s[0]] + NonSpaces(s[1..]) == word + ([s[0]] + NonSpaces(s[1..]));
    }
  }

  /**
   * `s.split()` drops exactly the white space: its words, concatenated, are
   * the non-space characters of `s` in order.
   */
  lemma SplitKeepsNonSpaces(s: string)
    ensures Concat(Split(s)) == NonSpaces(s)
  {
    SplitFromKeepsNonSpaces(s, []);
  }

  lemma {:induction false} SplitFromEmpty(s: string, word: string)
    requires NoSpace(word)
    ensures SplitFrom(s, word) == [] <==> word == [] && forall i :: 0 <= i < |s| ==> IsSpace(s[i])
    decreases |s|
  {
    if s != [] {
      if IsSpace(s[0]) {
        SplitFromEmpty(s[1..], []);
        assert forall i :: 1 <= i < |s| ==> s[i] == s[1..][i - 1];
      } else {
        SplitFromEmpty(s[1..], word + [s[0]]);
      }
    }
  }

  /** `s.split()` is empty exactly when `s` holds nothing but white space. */
  lemma SplitEmpty(s: string)
    ensures Split(s) == [] <==> forall i :: 0 <= i < |s| ==> IsSpace(s[i])
  {
    SplitFromEmpty(s, []);
  }

  lemma {:induction false} SplitFromNoSpace(s: string, word: string)
    requires NoSpace(word) && NoSpace(s)
    ensures SplitFrom(s, word) == if word + s == [] then [] else [word + s]
    decreases |s|
  {
    if s != [] {
      assert NoSpace(s[1..]) by {
        assert forall i :: 0 <= i < |s[1..]| ==> s[1..][i] == s[i + 1];
      }
      SplitFromNoSpace(s[1..], word + [s[0]]);
      assert (word + [s[0]]) + s[1..] == word + s;
    } else {
      assert word + s == word;
    }
  }

  /** A text without white space splits into itself alone, or into nothing if it is empty. */
  lemma SplitNoSpace(s: string)
    requires NoSpace(s)
    ensures Split(s) == if s == [] then [] else [s]
  {
    SplitFromNoSpace(s, []);
    assert [] + s == s;
  }

  lemma {:induction false} SplitFromAtSpace(a: string, c: char, b: string, word: string)
    requires NoSpace(word) && IsSpace(c)
    ensures SplitFrom(a + [c] + b, word) == SplitFrom(a, word) + SplitFrom(b, [])
    decreases |a|
  {
    var s := a + [c] + b;
    if a == [] {
      assert s[0] == c && s[1..] == b;
    } else {
      assert s[0] == a[0] && s[1..] == a[1..] + [c] + b;
      if IsSpace(a[0]) {
        SplitFromAtSpace(a[1..], c, b, []);
        var w: seq<string> := if word == [] then [] else [word];
        assert w + (SplitFrom(a[1..], []) + SplitFrom(b, [])) == (w + SplitFrom(a[1..], [])) + SplitFrom(b, []);
      } else {
        SplitFromAtSpace(a[1..], c, b, word + [a[0]]);
      }
    }
  }

  /**
   * A white-space character separates: the words of the text around it are
   * the words before it followed by the words after it. With `SplitNoSpace`
   * this determines `s.split()` for every text.
   */
  lemma SplitAtSpace(s: string, k: nat)
    requires k < |s| && IsSpace(s[k])
    ensures Split(s) == Split(s[..k]) + Split(s[k + 1..])
  {
    assert s == s[..k] + [s[k]] + s[k + 1..];
    SplitFromAtSpace(s[..k], s[k], s[k + 1..], []);
  }

  /** Every element of a member of `xss` occurs in `Concat(xss)`. */
  lemma {:induction false} ConcatMember<T>(xss: seq<seq<T>>, i: nat, x: T)
    requires i < |xss| && x in xss[i]
    ensures x in Concat(xss)
  {
    if i > 0 {
      ConcatMember(xss[1..], i - 1, x);
    }
  }
}
