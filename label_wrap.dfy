/** `wrapLabel` of the bar chart: a greedy word wrapper that hard-splits words
    longer than a line and keeps a word's short last chunk as the start of the
    next line. */
module LabelWrap {
  import opened Common

  // ---------------------------------------------------------------------------
  // `label.split(' ')` and its inverse
  // ---------------------------------------------------------------------------

  /** The pieces of `s` between single spaces; consecutive, leading and trailing
      spaces give empty pieces, and the empty string gives one empty piece. */
  function Split(s: string): (ws: seq<string>)
    ensures |ws| >= 1
  {
    if |s| == 0 then [""]
    else
      var init := Split(s[..|s| - 1]);
      if s[|s| - 1] == ' ' then init + [""]
      else init[..|init| - 1] + [init[|init| - 1] + [s[|s| - 1]]]
  }

  /** The pieces glued back together with one space between neighbours. */
  function Join(ws: seq<string>): string
  {
    if |ws| == 0 then ""
    else if |ws| == 1 then ws[0]
    else Join(ws[..|ws| - 1]) + " " + ws[|ws| - 1]
  }

  lemma JoinSnoc(ws: seq<string>, w: string)
    requires |ws| > 0
    ensures Join(ws + [w]) == Join(ws) + " " + w
  {
    assert (ws + [w])[..|ws|] == ws;
  }

  /** Splitting loses nothing: joining the words restores the label. */
  lemma {:induction false} JoinSplit(s: string)
    ensures Join(Split(s)) == s
  {
    if |s| > 0 {
      var t, c := s[..|s| - 1], s[|s| - 1];
      JoinSplit(t);
      JoinSplitStep(t, c);
      assert s == t + [c];
    }
  }

  /** The step of `JoinSplit` for one more character. */
  lemma {:induction false} JoinSplitStep(t: string, c: char)
    requires Join(Split(t)) == t
    ensures Join(Split(t + [c])) == t + [c]
  {
    if c == ' ' {
      JoinSplitSpace(t);
    } else {
      JoinSplitChar(t, c);
    }
  }

  lemma {:induction false} JoinSplitSpace(t: string)
    requires Join(Split(t)) == t
    ensures Join(Split(t + [' '])) == t + [' ']
  {
    var s := t + [' '];
    assert s[..|s| - 1] == t && s[|s| - 1] == ' ';
    assert Split(s) == Split(t) + [""];
    JoinSnoc(Split(t), "");
  }

  lemma {:induction false} JoinSplitChar(t: string, c: char)
    requires c != ' ' && Join(Split(t)) == t
    ensures Join(Split(t + [c])) == t + [c]
  {
    var s := t + [c];
    assert s[..|s| - 1] == t && s[|s| - 1] == c;
    var init := Split(t);
    var front, last := init[..|init| - 1], init[|init| - 1];
    assert Split(s) == front + [last + [c]];
    if |init| == 1 {
      assert Split(s) == [last + [c]];
      assert Join(init) == last;
    } else {
      JoinExtendLast(front, last, c);
      assert init == front + [last];
    }
  }

  lemma JoinExtendLast(front: seq<string>, last: string, c: char)
    requires |front| > 0
    ensures Join(front + [last + [c]]) == Join(front + [last]) + [c]
  {
    JoinSnoc(front, last);
    JoinSnoc(front, last + [c]);
  }

  /** The last word with `c` appended to it. */
  function ExtendLast(ws: seq<string>, c: char): (r: seq<string>)
    requires |ws| > 0
    ensures |r| == |ws| && r[..|r| - 1] == ws[..|ws| - 1]
    ensures r[|r| - 1] == ws[|ws| - 1] + [c]
  {
    ws[..|ws| - 1] + [ws[|ws| - 1] + [c]]
  }

  /** Extending the last word does not disturb the words in front. */
  lemma ExtendLastAppend(a: seq<string>, b: seq<string>, c: char)
    requires |b| > 0
    ensures ExtendLast(a + b, c) == a + ExtendLast(b, c)
  {
    assert (a + b)[..|a + b| - 1] == a + b[..|b| - 1];
  }

  /** Appending a space opens a new, empty word. */
  lemma SplitSnocSpace(s: string)
    ensures Split(s + [' ']) == Split(s) + [""]
  {
    assert (s + [' '])[..|s|] == s;
  }

  /** Appending any other character extends the last word. */
  lemma SplitSnocChar(s: string, c: char)
    requires c != ' '
    ensures Split(s + [c]) == ExtendLast(Split(s), c)
  {
    assert (s + [c])[..|s|] == s;
  }

  /** A space splits a label into the words before it and the words after it. */
  lemma {:induction false} SplitAtSpace(x: string, y: string)
    ensures Split(x + [' '] + y) == Split(x) + Split(y)
    decreases |y|
  {
    if |y| == 0 {
      assert x + [' '] + y == x + [' '];
      SplitSnocSpace(x);
    } else {
      var y', c := y[..|y| - 1], y[|y| - 1];
      assert y == y' + [c];
      assert x + [' '] + y == (x + [' '] + y') + [c];
      SplitAtSpace(x, y');
      if c == ' ' {
        SplitAtSpaceThenSpace(x, y');
      } else {
        SplitAtSpaceThenChar(x, y', c);
      }
    }
  }

  lemma SplitAtSpaceThenSpace(x: string, y: string)
    requires Split(x + [' '] + y) == Split(x) + Split(y)
    ensures Split((x + [' '] + y) + [' ']) == Split(x) + Split(y + [' '])
  {
    SplitSnocSpace(x + [' '] + y);
    SplitSnocSpace(y);
    assert (Split(x) + Split(y)) + [""] == Split(x) + (Split(y) + [""]);
  }

  lemma SplitAtSpaceThenChar(x: string, y: string, c: char)
    requires c != ' '
    requires Split(x + [' '] + y) == Split(x) + Split(y)
    ensures Split((x + [' '] + y) + [c]) == Split(x) + Split(y + [c])
  {
    SplitSnocChar(x + [' '] + y, c);
    SplitSnocChar(y, c);
    ExtendLastAppend(Split(x), Split(y), c);
  }

  /** A label without spaces is a single word. */
  lemma {:induction false} SplitNoSpace(s: string)
    requires ' ' !in s
    ensures Split(s) == [s]
  {
    if |s| > 0 {
      var t := s[..|s| - 1];
      SplitNoSpace(t);
      assert s == t + [s[|s| - 1]];
    }
  }

  // ---------------------------------------------------------------------------
  // wrapLabel, as a specification
  // ---------------------------------------------------------------------------

  /** The wrapper's two variables: the lines emitted so far and the pending line. */
  datatype WrapState = WrapState(lines: seq<string>, line: string)

  /** The hard split of an over-long word (`rest` is what is left of it): every
      full chunk of `maxChars` characters is emitted, and a shorter last chunk
      becomes the pending line. When there is no shorter chunk the pending line
      is left as it was. */
  function SplitChunks(st: WrapState, rest: string, maxChars: int): WrapState
    requires maxChars > 0
    decreases |rest|
  {
    if |rest| == 0 then st
    else if |rest| >= maxChars then
      SplitChunks(WrapState(st.lines + [rest[..maxChars]], st.line), rest[maxChars..], maxChars)
    else WrapState(st.lines, rest)
  }

  /** One pass of the word loop. */
  function WordStep(st: WrapState, w: string, maxChars: int): WrapState
    requires maxChars > 0
  {
    var candidate := if st.line != "" then st.line + " " + w else w;
    if |candidate| <= maxChars then WrapState(st.lines, candidate)
    else
      var flushed := if st.line != "" then st.lines + [st.line] else st.lines;
      if |w| > maxChars then SplitChunks(WrapState(flushed, st.line), w, maxChars)
      else WrapState(flushed, w)
  }

  /** The state after the word loop has run over `words`. */
  function WrapWords(words: seq<string>, maxChars: int): WrapState
    requires maxChars > 0
  {
    if |words| == 0 then WrapState([], "")
    else WordStep(WrapWords(words[..|words| - 1], maxChars), words[|words| - 1], maxChars)
  }

  /** The lines `wrapLabel(caption, maxChars)` returns. */
  function Wrap(caption: string, maxChars: int): (r: seq<string>)
    ensures maxChars <= 0 ==> r == [caption]
    ensures maxChars > 0 ==> forall i :: 0 <= i < |r| ==> 0 < |r[i]| <= maxChars
  {
    if maxChars <= 0 then [caption]
    else
      WrapWordsBounded(Split(caption), maxChars);
      var st := WrapWords(Split(caption), maxChars);
      if st.line != "" then st.lines + [st.line] else st.lines
  }

  /** `wrapLabel`: the word loop with its inner chunk loop. */
  method WrapLabel(caption: string, maxChars: int) returns (lines: seq<string>)
    ensures lines == Wrap(caption, maxChars)
    ensures maxChars <= 0 ==> lines == [caption]
    ensures maxChars > 0 ==> forall i :: 0 <= i < |lines| ==> 0 < |lines[i]| <= maxChars
  {
    if maxChars <= 0 {
      return [caption];
    }
    var words := Split(caption);
    lines := [];
    var line := "";
    for k := 0 to |words|
      invariant WrapState(lines, line) == WrapWords(words[..k], maxChars)
    {
      assert words[..k + 1][..k] == words[..k];
      var w := words[k];
      var candidate := if line != "" then line + " " + w else w;
      if |candidate| <= maxChars {
        line := candidate;
      } else {
        if line != "" {
          lines := lines + [line];
        }
        if |w| > maxChars {
          ghost var target := SplitChunks(WrapState(lines, line), w, maxChars);
          var i := 0;
          while i < |w|
            invariant 0 <= i
            invariant SplitChunks(WrapState(lines, line), if i <= |w| then w[i..] else "", maxChars) == target
            decreases |w| - i
          {
            var part := w[i..Min(i + maxChars, |w|)];
            if |part| == maxChars {
              assert w[i..][..maxChars] == part && w[i..][maxChars..] == w[i + maxChars..];
              lines := lines + [part];
            } else {
              assert part == w[i..];
              line := part;
            }
            i := i + maxChars;
          }
        } else {
          line := w;
        }
      }
    }
    assert words[..|words|] == words;
    if line != "" {
      lines := lines + [line];
    }
  }

  // ---------------------------------------------------------------------------
  // Properties of the wrapper
  // ---------------------------------------------------------------------------

  ghost predicate Bounded(st: WrapState, maxChars: int)
  {
    && |st.line| <= maxChars
    && forall i :: 0 <= i < |st.lines| ==> 0 < |st.lines[i]| <= maxChars
  }

  lemma {:induction false} SplitChunksBounded(st: WrapState, rest: string, maxChars: int)
    requires maxChars > 0 && Bounded(st, maxChars)
    ensures Bounded(SplitChunks(st, rest, maxChars), maxChars)
    decreases |rest|
  {
    if |rest| >= maxChars {
      SplitChunksBounded(WrapState(st.lines + [rest[..maxChars]], st.line), rest[maxChars..], maxChars);
    }
  }

  lemma {:induction false} WrapWordsBounded(words: seq<string>, maxChars: int)
    requires maxChars > 0
    ensures Bounded(WrapWords(words, maxChars), maxChars)
  {
    if |words| > 0 {
      var st := WrapWords(words[..|words| - 1], maxChars);
      var w := words[|words| - 1];
      WrapWordsBounded(words[..|words| - 1], maxChars);
      var flushed := if st.line != "" then st.lines + [st.line] else st.lines;
      if |w| > maxChars {
        SplitChunksBounded(WrapState(flushed, st.line), w, maxChars);
      }
    }
  }

  /** The full chunks of a word, in order. */
  function FullChunks(w: string, maxChars: int): seq<string>
    requires maxChars > 0
    decreases |w|
  {
    if |w| < maxChars then [] else [w[..maxChars]] + FullChunks(w[maxChars..], maxChars)
  }

  /** The characters of a word after its last full chunk. */
  function Remainder(w: string, maxChars: int): string
    requires maxChars > 0
    decreases |w|
  {
    if |w| < maxChars then w else Remainder(w[maxChars..], maxChars)
  }

  /** The concatenation of a list of strings. */
  function Concat(ss: seq<string>): string
  {
    if |ss| == 0 then "" else ss[0] + Concat(ss[1..])
  }

  lemma {:induction false} ConcatSnoc(ss: seq<string>, s: string)
    ensures Concat(ss + [s]) == Concat(ss) + s
  {
    if |ss| == 0 {
      assert Concat([s]) == s + Concat([]);
    } else {
      assert (ss + [s])[1..] == ss[1..] + [s];
      ConcatSnoc(ss[1..], s);
    }
  }

  /** The chunks and the remainder rebuild the word. */
  lemma {:induction false} ChunksConcat(w: string, maxChars: int)
    requires maxChars > 0
    ensures Concat(FullChunks(w, maxChars)) + Remainder(w, maxChars) == w
    decreases |w|
  {
    if |w| >= maxChars {
      ChunksConcat(w[maxChars..], maxChars);
      var tail := FullChunks(w[maxChars..], maxChars);
      assert ([w[..maxChars]] + tail)[1..] == tail;
      assert w == w[..maxChars] + w[maxChars..];
    }
  }

  /** Chunks are full, the remainder is shorter than a chunk, and the lengths add up. */
  lemma {:induction false} ChunksLengths(w: string, maxChars: int)
    requires maxChars > 0
    ensures forall i :: 0 <= i < |FullChunks(w, maxChars)| ==> |FullChunks(w, maxChars)[i]| == maxChars
    ensures |Remainder(w, maxChars)| < maxChars
    ensures |FullChunks(w, maxChars)| * maxChars + |Remainder(w, maxChars)| == |w|
    decreases |w|
  {
    if |w| >= maxChars {
      ChunksLengths(w[maxChars..], maxChars);
      var n := |FullChunks(w[maxChars..], maxChars)|;
      assert (n + 1) * maxChars == n * maxChars + maxChars;
    }
  }

  /** A word whose length is a whole number of lines leaves no remainder. */
  lemma {:induction false} RemainderOfMultiple(w: string, maxChars: int, n: nat)
    requires maxChars > 0 && |w| == n * maxChars
    ensures Remainder(w, maxChars) == ""
    decreases n
  {
    if n > 0 {
      assert |w| == (n - 1) * maxChars + maxChars;
      RemainderOfMultiple(w[maxChars..], maxChars, n - 1);
    }
  }

  /** What the hard split does, in closed form. */
  lemma {:induction false} SplitChunksShape(st: WrapState, rest: string, maxChars: int)
    requires maxChars > 0
    ensures SplitChunks(st, rest, maxChars)
         == WrapState(st.lines + FullChunks(rest, maxChars),
                      if Remainder(rest, maxChars) == "" then st.line else Remainder(rest, maxChars))
    decreases |rest|
  {
    if |rest| >= maxChars {
      SplitChunksShape(WrapState(st.lines + [rest[..maxChars]], st.line), rest[maxChars..], maxChars);
      assert st.lines + [rest[..maxChars]] + FullChunks(rest[maxChars..], maxChars)
          == st.lines + FullChunks(rest, maxChars);
    }
  }

  /** The lines of a label without spaces: its full chunks, then its remainder if any. */
  lemma WrapOneWord(caption: string, maxChars: int)
    requires maxChars > 0 && caption != "" && ' ' !in caption
    ensures Wrap(caption, maxChars)
         == FullChunks(caption, maxChars) + (if Remainder(caption, maxChars) == "" then [] else [Remainder(caption, maxChars)])
  {
    OneWordState(caption, maxChars);
    if |caption| <= maxChars {
      ShortWordChunks(caption, maxChars);
    } else {
      SplitChunksShape(WrapState([], ""), caption, maxChars);
    }
  }

  /** A label without spaces goes through the word loop once. */
  lemma OneWordState(caption: string, maxChars: int)
    requires maxChars > 0 && ' ' !in caption
    ensures var st := WordStep(WrapState([], ""), caption, maxChars);
      Wrap(caption, maxChars) == if st.line != "" then st.lines + [st.line] else st.lines
  {
    SplitNoSpace(caption);
    assert [caption][..0] == [];
    assert WrapWords([], maxChars) == WrapState([], "");
  }

  /** A word that fits is its own single chunk or its own remainder. */
  lemma ShortWordChunks(w: string, maxChars: int)
    requires 0 < |w| <= maxChars
    ensures FullChunks(w, maxChars) + (if Remainder(w, maxChars) == "" then [] else [Remainder(w, maxChars)]) == [w]
  {
    if |w| == maxChars {
      assert w[..maxChars] == w && w[maxChars..] == "";
    }
  }

  /** A non-empty label without spaces is cut into full chunks of `maxChars`
      characters and a non-empty last line: nothing is lost, every line but the
      last is full, and there are ceil(|caption| / maxChars) lines. */
  lemma WrapUnbrokenWord(caption: string, maxChars: int)
    requires maxChars > 0 && caption != "" && ' ' !in caption
    ensures var r := Wrap(caption, maxChars);
      && |r| > 0
      && Concat(r) == caption
      && (forall i :: 0 <= i < |r| - 1 ==> |r[i]| == maxChars)
      && 0 < |r[|r| - 1]| <= maxChars
      && (|r| - 1) * maxChars < |caption| <= |r| * maxChars
  {
    var r := Wrap(caption, maxChars);
    var chunks, rem := FullChunks(caption, maxChars), Remainder(caption, maxChars);
    WrapOneWord(caption, maxChars);
    ChunksConcat(caption, maxChars);
    ChunksLengths(caption, maxChars);
    if rem == "" {
      assert r == chunks;
    } else {
      assert r == chunks + [rem];
      ConcatSnoc(chunks, rem);
    }
    LineCountBounds(|chunks|, |rem|, maxChars, |caption|);
  }

  /** `n` full lines of `m` characters and `rem` more make `len` characters; the
      line count, counting a short last line, is the least `k` with `len <= k * m`. */
  lemma LineCountBounds(n: nat, rem: nat, m: int, len: int)
    requires m > 0 && rem < m && n * m + rem == len && len > 0
    ensures var k := if rem == 0 then n else n + 1;
      (k - 1) * m < len <= k * m
  {
    assert (n + 1) * m == n * m + m;
    assert (n - 1) * m == n * m - m;
  }

  ghost predicate WordsFit(words: seq<string>, maxChars: int)
  {
    forall i :: 0 <= i < |words| ==> 0 < |words[i]| <= maxChars
  }

  lemma {:induction false} WrapWordsKeepsWords(words: seq<string>, maxChars: int)
    requires maxChars > 0 && |words| > 0 && WordsFit(words, maxChars)
    ensures WrapWords(words, maxChars).line != ""
    ensures Join(WrapWords(words, maxChars).lines + [WrapWords(words, maxChars).line]) == Join(words)
  {
    var init := words[..|words| - 1];
    var w := words[|words| - 1];
    assert words == init + [w];
    if |init| == 0 {
      assert WrapWords(init, maxChars) == WrapState([], "");
    } else {
      WrapWordsKeepsWords(init, maxChars);
      KeepsWordsStep(WrapWords(init, maxChars), Join(init), w, maxChars);
      JoinSnoc(init, w);
    }
  }

  /** One word that fits, added to a non-empty pending line, joins the text with one space. */
  lemma KeepsWordsStep(st: WrapState, text: string, w: string, maxChars: int)
    requires 0 < |w| <= maxChars && st.line != ""
    requires Join(st.lines + [st.line]) == text
    ensures WordStep(st, w, maxChars).line != ""
    ensures Join(WordStep(st, w, maxChars).lines + [WordStep(st, w, maxChars).line]) == text + " " + w
  {
    if |st.line + " " + w| <= maxChars {
      if |st.lines| == 0 {
        assert st.lines + [st.line + " " + w] == [st.line + " " + w];
        assert st.lines + [st.line] == [st.line];
      } else {
        JoinSnoc(st.lines, st.line);
        JoinSnoc(st.lines, st.line + " " + w);
      }
    } else {
      JoinSnoc(st.lines + [st.line], w);
    }
  }

  /** When every word is non-empty and fits on a line, wrapping only turns some
      of the label's spaces into line breaks: no word is split and nothing is lost. */
  lemma WrapKeepsWordsWhole(caption: string, maxChars: int)
    requires maxChars > 0 && WordsFit(Split(caption), maxChars)
    ensures Join(Wrap(caption, maxChars)) == caption
  {
    WrapWordsKeepsWords(Split(caption), maxChars);
    JoinSplit(caption);
  }

  /** The first word of a line. */
  function FirstWord(s: string): string
  {
    Split(s)[0]
  }

  /** The line `a` had no room left for the first word of the line `b` after it. */
  ghost predicate NoRoomFor(a: string, b: string, maxChars: int)
  {
    |a| + 1 + |FirstWord(b)| > maxChars
  }

  /** The wrapper is greedy so far: no emitted line had room for the first word
      of the line after it, the pending line included. */
  ghost predicate Greedy(st: WrapState, maxChars: int)
  {
    && (forall i :: 0 <= i < |st.lines| - 1 ==> NoRoomFor(st.lines[i], st.lines[i + 1], maxChars))
    && (|st.lines| > 0 ==> st.line != "" && NoRoomFor(st.lines[|st.lines| - 1], st.line, maxChars))
  }

  /** The words of `split(' ')` contain no space. */
  lemma {:induction false} SplitNoSpaces(s: string)
    ensures forall i :: 0 <= i < |Split(s)| ==> ' ' !in Split(s)[i]
  {
    if |s| > 0 {
      var t, c := s[..|s| - 1], s[|s| - 1];
      assert s == t + [c];
      SplitNoSpaces(t);
      if c == ' ' {
        SplitSnocSpace(t);
      } else {
        SplitSnocChar(t, c);
      }
    }
  }

  /** Adding a word after a non-empty line keeps the line's first word. */
  lemma FirstWordKept(line: string, w: string)
    requires line != ""
    ensures FirstWord(line + " " + w) == FirstWord(line)
  {
    SplitAtSpace(line, w);
  }

  /** Flushing a full line before a word it had no room for keeps the wrapper greedy. */
  lemma GreedyFlush(lines: seq<string>, line: string, w: string, maxChars: int)
    requires Greedy(WrapState(lines, line), maxChars) && line != "" && w != ""
    requires NoRoomFor(line, w, maxChars)
    ensures Greedy(WrapState(lines + [line], w), maxChars)
  {
    var ls := lines + [line];
    forall i | 0 <= i < |ls| - 1
      ensures NoRoomFor(ls[i], ls[i + 1], maxChars)
    {
      if i < |lines| - 1 {
        assert ls[i] == lines[i] && ls[i + 1] == lines[i + 1];
      }
    }
  }

  /** One pass of the word loop, with a word that fits, keeps the wrapper greedy. */
  lemma {:induction false} GreedyStep(st: WrapState, w: string, maxChars: int)
    requires maxChars > 0 && 0 < |w| <= maxChars && ' ' !in w && Greedy(st, maxChars)
    ensures Greedy(WordStep(st, w, maxChars), maxChars)
  {
    SplitNoSpace(w);
    assert FirstWord(w) == w;
    if st.line != "" {
      FirstWordKept(st.line, w);
      if |st.line + " " + w| > maxChars {
        assert WordStep(st, w, maxChars) == WrapState(st.lines + [st.line], w);
        GreedyFlush(st.lines, st.line, w, maxChars);
      }
    }
  }

  lemma {:induction false} WrapWordsGreedy(words: seq<string>, maxChars: int)
    requires maxChars > 0 && WordsFit(words, maxChars)
    requires forall i :: 0 <= i < |words| ==> ' ' !in words[i]
    ensures Greedy(WrapWords(words, maxChars), maxChars)
  {
    if |words| > 0 {
      var init := words[..|words| - 1];
      assert forall i :: 0 <= i < |init| ==> init[i] == words[i];
      WrapWordsGreedy(init, maxChars);
      GreedyStep(WrapWords(init, maxChars), words[|words| - 1], maxChars);
    }
  }

  /** When every word fits, `wrapLabel` fills lines greedily: a word goes to a new
      line only when it does not fit after the current one, so no line has room
      left for the first word of the next. */
  lemma WrapGreedy(caption: string, maxChars: int)
    requires maxChars > 0 && WordsFit(Split(caption), maxChars)
    ensures var r := Wrap(caption, maxChars);
      forall i :: 0 <= i < |r| - 1 ==> |r[i]| + 1 + |FirstWord(r[i + 1])| > maxChars
  {
    SplitNoSpaces(caption);
    WrapWordsGreedy(Split(caption), maxChars);
    var st := WrapWords(Split(caption), maxChars);
    var r := Wrap(caption, maxChars);
    if st.line != "" {
      assert r == st.lines + [st.line];
      forall i | 0 <= i < |r| - 1
        ensures NoRoomFor(r[i], r[i + 1], maxChars)
      {
        if i < |st.lines| - 1 {
          assert r[i] == st.lines[i] && r[i + 1] == st.lines[i + 1];
        }
      }
    } else {
      assert r == st.lines && |st.lines| == 0;
    }
  }

  /** The source's quirk: a word whose length is a multiple of `maxChars` (and
      longer than one line) leaves no short chunk behind, so the pending line,
      already emitted before the chunks, stays pending and is emitted again. */
  lemma PendingLineRepeated(st: WrapState, w: string, maxChars: int)
    requires maxChars > 0 && st.line != "" && |w| > maxChars && |w| % maxChars == 0
    ensures var next := WordStep(st, w, maxChars);
      && next.line == st.line
      && next.lines == st.lines + [st.line] + FullChunks(w, maxChars)
  {
    SplitChunksShape(WrapState(st.lines + [st.line], st.line), w, maxChars);
    RemainderOfMultiple(w, maxChars, |w| / maxChars);
  }

  /** The example that shows the quirk: "ab" is emitted before and after the chunks of "abcdef". */
  lemma WrapQuirkExample()
    ensures Wrap("ab abcdef", 3) == ["ab", "abc", "def", "ab"]
  {
    QuirkWords();
    QuirkWrapWords();
  }

  lemma QuirkWrapWords()
    ensures WrapWords(["ab", "abcdef"], 3) == WrapState(["ab", "abc", "def"], "ab")
  {
    QuirkFirstWord();
    QuirkChunks();
    assert ["ab", "abcdef"][..1] == ["ab"];
    PendingLineRepeated(WrapState([], "ab"), "abcdef", 3);
  }

  lemma QuirkFirstWord()
    ensures WrapWords(["ab"], 3) == WrapState([], "ab")
  {
    assert ["ab"][..0] == [];
    assert WrapWords([], 3) == WrapState([], "");
  }

  lemma QuirkWords()
    ensures Split("ab abcdef") == ["ab", "abcdef"]
  {
    assert "ab abcdef" == "ab" + [' '] + "abcdef";
    SplitTwoWords("ab", "abcdef");
  }

  /** Two words separated by one space. */
  lemma SplitTwoWords(x: string, y: string)
    requires ' ' !in x && ' ' !in y
    ensures Split(x + [' '] + y) == [x, y]
  {
    SplitAtSpace(x, y);
    SplitNoSpace(x);
    SplitNoSpace(y);
  }

  lemma QuirkChunks()
    ensures FullChunks("abcdef", 3) == ["abc", "def"]
  {
    assert "abcdef"[..3] == "abc" && "abcdef"[3..] == "def";
    assert "def"[..3] == "def" && "def"[3..] == "";
    assert FullChunks("", 3) == [];
    assert FullChunks("def", 3) == ["def"];
  }
}
