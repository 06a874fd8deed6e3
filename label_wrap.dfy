/** The label wrap of the point-text constructor: Java's `split(" ")`, and the
    greedy loop that joins the words again, starting a new line whenever the next
    word would take the running character count past 15. */
module LabelWrap {

  /** The longest line, in characters, that the wrap loop aims for. */
  const LINE_LIMIT: nat := 15

  /** A non-empty sequence is its front followed by its last element. */
  lemma SplitLast<T>(s: seq<T>)
    requires |s| >= 1
    ensures s == s[..|s| - 1] + [s[|s| - 1]]
  {
  }

  lemma TakeTake<T>(s: seq<T>, i: nat)
    requires i < |s|
    ensures s[..i + 1][..i] == s[..i] && s[..i + 1][i] == s[i]
  {
  }

  lemma TakeSnoc<T>(s: seq<T>, x: T)
    ensures (s + [x])[..|s|] == s
  {
  }

  /** The strings of `ss` with `sep` between neighbours. */
  function Join(sep: char, ss: seq<string>): string
    decreases |ss|
  {
    if |ss| == 0 then ""
    else if |ss| == 1 then ss[0]
    else Join(sep, ss[..|ss| - 1]) + [sep] + ss[|ss| - 1]
  }

  /** All groups, one after the other. */
  function Concat(gs: seq<seq<string>>): seq<string>
    decreases |gs|
  {
    if |gs| == 0 then [] else Concat(gs[..|gs| - 1]) + gs[|gs| - 1]
  }

  /** The wrapped text: each group's words joined by single spaces, the groups
      joined by line breaks. */
  function Lines(gs: seq<seq<string>>): string
    decreases |gs|
  {
    if |gs| == 0 then ""
    else if |gs| == 1 then Join(' ', gs[0])
    else Lines(gs[..|gs| - 1]) + "\n" + Join(' ', gs[|gs| - 1])
  }

  /** `s` with every line break turned back into a space. */
  function Unbreak(s: string): (u: string)
    ensures |u| == |s|
  {
    seq(|s|, i requires 0 <= i < |s| => if s[i] == '\n' then ' ' else s[i])
  }

  predicate Blank(s: string) {
    forall k :: 0 <= k < |s| ==> s[k] == ' '
  }

  /** Extending the last string extends the joined text by the same characters. */
  lemma JoinExtendLast(sep: char, ss: seq<string>, t: string)
    requires |ss| >= 1
    ensures Join(sep, ss[..|ss| - 1] + [ss[|ss| - 1] + t]) == Join(sep, ss) + t
  {
    var ss' := ss[..|ss| - 1] + [ss[|ss| - 1] + t];
    if |ss| > 1 {
      assert ss'[..|ss'| - 1] == ss[..|ss| - 1];
    }
  }

  /** Joining one more string adds a separator and that string. */
  lemma JoinSnoc(sep: char, ss: seq<string>, t: string)
    requires |ss| >= 1
    ensures Join(sep, ss + [t]) == Join(sep, ss) + [sep] + t
  {
    TakeSnoc(ss, t);
  }

  lemma UnbreakAppend(x: string, y: string)
    ensures Unbreak(x + y) == Unbreak(x) + Unbreak(y)
  {
  }

  // ---------------------------------------------------------------------------
  // split(" ")

  /** The fields of `s` between its spaces, empty ones included. */
  function Fields(s: string): (fs: seq<string>)
    ensures |fs| >= 1
    decreases |s|
  {
    if |s| == 0 then [""]
    else
      var fs := Fields(s[..|s| - 1]);
      if s[|s| - 1] == ' ' then fs + [""]
      else fs[..|fs| - 1] + [fs[|fs| - 1] + [s[|s| - 1]]]
  }

  /** Splitting at the spaces and joining with spaces gives the text back, and no
      field holds a space. */
  lemma {:induction false} FieldsRoundTrip(s: string)
    ensures Join(' ', Fields(s)) == s
    ensures forall k :: 0 <= k < |Fields(s)| ==> ' ' !in Fields(s)[k]
    decreases |s|
  {
    if |s| > 0 {
      var fs := Fields(s[..|s| - 1]);
      FieldsRoundTrip(s[..|s| - 1]);
      if s[|s| - 1] == ' ' {
        JoinSnoc(' ', fs, "");
      } else {
        JoinExtendLast(' ', fs, [s[|s| - 1]]);
        var fs' := Fields(s);
        forall k | 0 <= k < |fs'| ensures ' ' !in fs'[k] {
          if k < |fs| - 1 {
            assert fs'[k] == fs[k];
          }
        }
      }
      SplitLast(s);
    }
  }

  /** The fields of `s` are all empty exactly when `s` is nothing but spaces. */
  lemma {:induction false} FieldsEmptyIffBlank(s: string)
    ensures (forall k :: 0 <= k < |Fields(s)| ==> Fields(s)[k] == "") <==> Blank(s)
    decreases |s|
  {
    if |s| > 0 {
      var p := s[..|s| - 1];
      FieldsEmptyIffBlank(p);
      var fs := Fields(p);
      var fs' := Fields(s);
      if s[|s| - 1] == ' ' {
        assert fs' == fs + [""];
        if Blank(p) {
          assert Blank(s) by {
            forall k | 0 <= k < |s| ensures s[k] == ' ' {
              if k < |s| - 1 { assert s[k] == p[k]; }
            }
          }
        } else {
          var k :| 0 <= k < |p| && p[k] != ' ';
          assert s[k] == p[k];
          var j :| 0 <= j < |fs| && fs[j] != "";
          assert fs'[j] == fs[j];
        }
      } else {
        assert fs'[|fs'| - 1] != "";
      }
    }
  }

  /** `fs` without its trailing empty strings. */
  function DropTrailingEmpty(fs: seq<string>): (r: seq<string>)
    ensures |r| <= |fs| && r == fs[..|r|]
    ensures forall k :: |r| <= k < |fs| ==> fs[k] == ""
    ensures |r| > 0 ==> r[|r| - 1] != ""
    decreases |fs|
  {
    if |fs| == 0 then []
    else if fs[|fs| - 1] == "" then DropTrailingEmpty(fs[..|fs| - 1])
    else fs
  }

  /** Dropping the trailing empty strings leaves nothing exactly when every
      string is empty. */
  lemma {:induction false} DropEmptyIffAllEmpty(fs: seq<string>)
    ensures DropTrailingEmpty(fs) == [] <==> forall k :: 0 <= k < |fs| ==> fs[k] == ""
    decreases |fs|
  {
    if |fs| > 0 && fs[|fs| - 1] == "" {
      var p := fs[..|fs| - 1];
      DropEmptyIffAllEmpty(p);
      if DropTrailingEmpty(p) != [] {
        var j :| 0 <= j < |p| && p[j] != "";
        assert fs[j] == p[j];
      }
    }
  }

  /** Joined with spaces, the strings without their trailing empty ones are a
      prefix of all of them joined, and what is cut off is spaces. */
  lemma {:induction false} DropTrailingJoin(fs: seq<string>)
    requires DropTrailingEmpty(fs) != []
    ensures Join(' ', DropTrailingEmpty(fs)) <= Join(' ', fs)
    ensures Blank(Join(' ', fs)[|Join(' ', DropTrailingEmpty(fs))|..])
    decreases |fs|
  {
    if fs[|fs| - 1] == "" {
      var p := fs[..|fs| - 1];
      DropTrailingJoin(p);
      SplitLast(fs);
      JoinSnoc(' ', p, "");
      var t := Join(' ', DropTrailingEmpty(p));
      var j := Join(' ', p);
      assert Join(' ', fs) == j + " ";
      assert Join(' ', fs)[|t|..] == j[|t|..] + " ";
    }
  }

  /** Java's `s.split(" ")`: the fields between spaces, with the trailing empty ones
      removed, so that a non-empty text of spaces alone gives no field at all. A text
      without any space, the empty one included, is its own single field. */
  function SplitOnSpace(s: string): (r: seq<string>)
    ensures r == [] <==> s != "" && Blank(s)
    ensures ' ' !in s ==> r == [s]
  {
    if ' ' !in s then
      assert s != "" ==> s[0] != ' ';
      [s]
    else
      FieldsEmptyIffBlank(s);
      DropEmptyIffAllEmpty(Fields(s));
      assert Blank(s) ==> forall k :: 0 <= k < |Fields(s)| ==> Fields(s)[k] == "";
      DropTrailingEmpty(Fields(s))
  }

  /** The empty text splits into one empty field; spaces alone into none. */
  lemma SplitOnSpaceExamples()
    ensures SplitOnSpace("") == [""]
    ensures SplitOnSpace("   ") == []
  {
    assert "   "[0] == ' ';
  }

  /** No field of the split holds a space, and joining the fields with spaces gives
      the text without its trailing spaces. */
  lemma SplitShape(s: string)
    ensures forall k :: 0 <= k < |SplitOnSpace(s)| ==> ' ' !in SplitOnSpace(s)[k]
    ensures SplitOnSpace(s) != [] ==>
              Join(' ', SplitOnSpace(s)) <= s && Blank(s[|Join(' ', SplitOnSpace(s))|..])
  {
    if ' ' !in s {
      assert SplitOnSpace(s) == [s] && Join(' ', [s]) == s;
      return;
    }
    FieldsRoundTrip(s);
    var fs := Fields(s);
    var r := SplitOnSpace(s);
    forall k | 0 <= k < |r| ensures ' ' !in r[k] {
      assert r[k] == fs[k];
    }
    if r != [] {
      DropTrailingJoin(fs);
    }
  }

  // ---------------------------------------------------------------------------
  // The greedy wrap

  /** Every line holds at least one word. */
  predicate GroupsNonEmpty(gs: seq<seq<string>>) {
    forall i :: 0 <= i < |gs| ==> |gs[i]| >= 1
  }

  /** Each line is full: its length plus the first word of the next line is over 15. */
  predicate BreaksWhenFull(gs: seq<seq<string>>) {
    forall i :: 1 <= i < |gs| ==> |gs[i]| >= 1 && |Join(' ', gs[i - 1])| + |gs[i][0]| > LINE_LIMIT
  }

  /** Within a line, the words before each word plus that word come to at most 15. */
  predicate FillsLines(gs: seq<seq<string>>) {
    forall i, k :: 0 <= i < |gs| && 1 <= k < |gs[i]| ==> |Join(' ', gs[i][..k])| + |gs[i][k]| <= LINE_LIMIT
  }

  /** Whether one round of the wrap loop starts a new line for `w`: the running
      count (the current line's length) plus the word's length is over 15. The
      separating space is not counted. */
  predicate Overflows(gs: seq<seq<string>>, w: string)
    requires |gs| >= 1
  {
    |Join(' ', gs[|gs| - 1])| + |w| > LINE_LIMIT
  }

  /** One round of the wrap loop: `w` opens a new line or joins the current one. */
  function Place(gs: seq<seq<string>>, w: string): (gs': seq<seq<string>>)
    requires |gs| >= 1
    ensures |gs'| >= 1 && |gs'[|gs'| - 1]| >= 1
  {
    if Overflows(gs, w) then gs + [[w]]
    else gs[..|gs| - 1] + [gs[|gs| - 1] + [w]]
  }

  /** The lines the wrap loop builds from `words`: the first word opens the first
      line, then every later word is placed in turn. */
  function Greedy(words: seq<string>): (gs: seq<seq<string>>)
    requires |words| >= 1
    ensures |gs| >= 1 && |gs[|gs| - 1]| >= 1
    decreases |words|
  {
    if |words| == 1 then [[words[0]]]
    else Place(Greedy(words[..|words| - 1]), words[|words| - 1])
  }

  /** The number of characters on the last line. */
  function LastLength(gs: seq<seq<string>>): nat
    requires |gs| >= 1
  {
    |Join(' ', gs[|gs| - 1])|
  }

  lemma ConcatSnoc(gs: seq<seq<string>>, g: seq<string>)
    ensures Concat(gs + [g]) == Concat(gs) + g
  {
    TakeSnoc(gs, g);
  }

  /** Placing a word appends it to the words of the lines. */
  lemma PlaceKeepsWords(gs: seq<seq<string>>, w: string)
    requires |gs| >= 1
    ensures Concat(Place(gs, w)) == Concat(gs) + [w]
  {
    if Overflows(gs, w) {
      ConcatSnoc(gs, [w]);
    } else {
      var init := gs[..|gs| - 1];
      var last := gs[|gs| - 1];
      SplitLast(gs);
      ConcatSnoc(init, last);
      ConcatSnoc(init, last + [w]);
    }
  }

  /** Placing a word leaves no line empty. */
  lemma PlaceKeepsNonEmpty(gs: seq<seq<string>>, w: string)
    requires |gs| >= 1 && GroupsNonEmpty(gs)
    ensures GroupsNonEmpty(Place(gs, w))
  {
    var gs' := Place(gs, w);
    forall i | 0 <= i < |gs'| ensures |gs'[i]| >= 1 {
      if i < |gs| - 1 {
        assert gs'[i] == gs[i];
      }
    }
  }

  /** Placing a word keeps every line but the last full. */
  lemma PlaceKeepsBreaks(gs: seq<seq<string>>, w: string)
    requires |gs| >= 1 && GroupsNonEmpty(gs) && BreaksWhenFull(gs)
    ensures BreaksWhenFull(Place(gs, w))
  {
    var gs' := Place(gs, w);
    if !Overflows(gs, w) {
      var last := gs[|gs| - 1];
      forall i | 1 <= i < |gs'|
        ensures |gs'[i]| >= 1 && |Join(' ', gs'[i - 1])| + |gs'[i][0]| > LINE_LIMIT
      {
        assert gs'[i - 1] == gs[i - 1];
        if i < |gs| - 1 {
          assert gs'[i] == gs[i];
        } else {
          assert gs'[i] == last + [w];
        }
      }
    }
  }

  /** Placing a word keeps every word within its line's budget. */
  lemma PlaceKeepsFill(gs: seq<seq<string>>, w: string)
    requires |gs| >= 1 && FillsLines(gs)
    ensures FillsLines(Place(gs, w))
  {
    var gs' := Place(gs, w);
    if Overflows(gs, w) {
      forall i, k | 0 <= i < |gs'| && 1 <= k < |gs'[i]|
        ensures |Join(' ', gs'[i][..k])| + |gs'[i][k]| <= LINE_LIMIT
      {
        assert gs'[i] == gs[i];
      }
    } else {
      var last := gs[|gs| - 1];
      forall i, k | 0 <= i < |gs'| && 1 <= k < |gs'[i]|
        ensures |Join(' ', gs'[i][..k])| + |gs'[i][k]| <= LINE_LIMIT
      {
        if i < |gs| - 1 {
          assert gs'[i] == gs[i];
        } else if k == |last| {
          assert gs'[i][..k] == last && gs'[i][k] == w;
        } else {
          assert gs'[i][..k] == last[..k] && gs'[i][k] == last[k];
        }
      }
    }
  }

  /** The wrapped lines hold every word once and in order, none split; every line
      is full before the next begins, and a word joins the current line whenever
      it fits. */
  lemma {:induction false} GreedyShape(words: seq<string>)
    requires |words| >= 1
    ensures Concat(Greedy(words)) == words
    ensures GroupsNonEmpty(Greedy(words))
    ensures BreaksWhenFull(Greedy(words))
    ensures FillsLines(Greedy(words))
    decreases |words|
  {
    if |words| > 1 {
      var p := words[..|words| - 1];
      var w := words[|words| - 1];
      GreedyShape(p);
      PlaceKeepsWords(Greedy(p), w);
      PlaceKeepsNonEmpty(Greedy(p), w);
      PlaceKeepsBreaks(Greedy(p), w);
      PlaceKeepsFill(Greedy(p), w);
      SplitLast(words);
    }
  }

  /** Hence a line of two or more words has at most 16 characters; a single word
      longer than that keeps a line to itself. */
  lemma GreedyLineLength(words: seq<string>)
    requires |words| >= 1
    ensures forall i :: 0 <= i < |Greedy(words)| && |Greedy(words)[i]| >= 2 ==>
              |Join(' ', Greedy(words)[i])| <= LINE_LIMIT + 1
  {
    var gs := Greedy(words);
    GreedyShape(words);
    forall i | 0 <= i < |gs| && |gs[i]| >= 2 ensures |Join(' ', gs[i])| <= LINE_LIMIT + 1 {
      var g := gs[i];
      var k := |g| - 1;
      assert |Join(' ', g[..k])| + |g[k]| <= LINE_LIMIT;
      SplitLast(g);
      JoinSnoc(' ', g[..k], g[k]);
    }
  }

  /** The text of the lines after placing `w`: the old text, a line break or a
      space, then the word; and the length of the new last line. */
  lemma PlaceText(gs: seq<seq<string>>, w: string)
    requires |gs| >= 1 && |gs[|gs| - 1]| >= 1
    ensures Overflows(gs, w) ==>
              Lines(Place(gs, w)) == Lines(gs) + "\n" + w && LastLength(Place(gs, w)) == |w|
    ensures !Overflows(gs, w) ==>
              Lines(Place(gs, w)) == Lines(gs) + " " + w
              && LastLength(Place(gs, w)) == LastLength(gs) + 1 + |w|
  {
    var gs' := Place(gs, w);
    var last := gs[|gs| - 1];
    if Overflows(gs, w) {
      TakeSnoc(gs, [w]);
    } else {
      JoinSnoc(' ', last, w);
      if |gs| > 1 {
        assert gs'[..|gs'| - 1] == gs[..|gs| - 1];
      }
    }
  }

  /** A line break and a space read the same once breaks are undone. */
  lemma UnbreakSeparator(a: string, sep: char, w: string)
    requires sep == '\n' || sep == ' '
    ensures Unbreak(a + [sep] + w) == Unbreak(a) + [' '] + Unbreak(w)
  {
    UnbreakAppend(a + [sep], w);
    UnbreakAppend(a, [sep]);
  }

  /** The wrapped text differs from the words joined by spaces only in which
      separators are line breaks. */
  lemma {:induction false} WrapOnlyChangesSeparators(words: seq<string>)
    requires |words| >= 1
    ensures Unbreak(Lines(Greedy(words))) == Unbreak(Join(' ', words))
    decreases |words|
  {
    if |words| > 1 {
      var p := words[..|words| - 1];
      var w := words[|words| - 1];
      var gs := Greedy(p);
      WrapOnlyChangesSeparators(p);
      PlaceText(gs, w);
      SplitLast(words);
      JoinSnoc(' ', p, w);
      UnbreakSeparator(Lines(gs), if Overflows(gs, w) then '\n' else ' ', w);
      UnbreakSeparator(Join(' ', p), ' ', w);
    }
  }

  /** What the wrap loop holds once it has taken `words`, round by round: the text
      so far and the running character count. */
  function Wrapped(words: seq<string>): (string, nat)
    requires |words| >= 1
    decreases |words|
  {
    if |words| == 1 then (words[0], |words[0]|)
    else
      var (text, charCount) := Wrapped(words[..|words| - 1]);
      var w := words[|words| - 1];
      if charCount + |w| > LINE_LIMIT then (text + "\n" + w, |w|)
      else (text + " " + w, charCount + 1 + |w|)
  }

  /** Round by round, the loop's text is the text of the greedy lines, and its
      count the length of their last line. */
  lemma {:induction false} WrappedIsGreedy(words: seq<string>)
    requires |words| >= 1
    ensures Wrapped(words) == (Lines(Greedy(words)), LastLength(Greedy(words)))
    decreases |words|
  {
    if |words| > 1 {
      var p := words[..|words| - 1];
      WrappedIsGreedy(p);
      PlaceText(Greedy(p), words[|words| - 1]);
    }
  }

  /** The wrap loop of the constructor: the text it builds and `charCount`, the
      length of its last line. */
  method WrapWords(words: seq<string>) returns (linebreakText: string, charCount: nat)
    requires |words| >= 1
    ensures linebreakText == Lines(Greedy(words))
    ensures charCount == LastLength(Greedy(words))
  {
    linebreakText := words[0];
    charCount := |linebreakText|;
    assert words[..1] == [words[0]];
    for i := 1 to |words|
      invariant (linebreakText, charCount) == Wrapped(words[..i])
    {
      var textFragment := words[i];
      TakeTake(words, i);
      if charCount + |textFragment| > LINE_LIMIT {
        linebreakText := linebreakText + "\n" + textFragment;
        charCount := |textFragment|;
      } else {
        linebreakText := linebreakText + " " + textFragment;
        charCount := charCount + 1 + |textFragment|;
      }
    }
    assert words[..|words|] == words;
    WrappedIsGreedy(words);
  }
}
