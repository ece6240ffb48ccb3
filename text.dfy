/** Whitespace splitting and single-space joining of words, as Python's str.split() and
    " ".join do them. */
module Text {

  /** The characters Python's str.isspace accepts, on which str.split() with no argument breaks. */
  predicate IsSpace(c: char) {
    c == ' ' || ('\t' <= c <= '\r') || ('\U{1c}' <= c <= '\U{1f}') || c == '\U{85}' || c == '\U{a0}'
    || c == '\U{1680}' || ('\U{2000}' <= c <= '\U{200a}') || c == '\U{2028}' || c == '\U{2029}'
    || c == '\U{202f}' || c == '\U{205f}' || c == '\U{3000}'
  }

  predicate NoSpace(s: string) {
    forall i :: 0 <= i < |s| ==> !IsSpace(s[i])
  }

  predicate AllSpace(s: string) {
    forall i :: 0 <= i < |s| ==> IsSpace(s[i])
  }

  /** A word: a non-empty run of non-whitespace characters. */
  predicate IsWord(w: string) {
    w != "" && NoSpace(w)
  }

  predicate AllWords(ws: seq<string>) {
    forall i :: 0 <= i < |ws| ==> IsWord(ws[i])
  }

  /** The word being collected, if there is one. */
  function Flush(current: string): seq<string> {
    if current == "" then [] else [current]
  }

  /** Splits s on runs of whitespace, `current` being the part of a word already read. */
  function SplitFrom(s: string, current: string): (ws: seq<string>)
    requires NoSpace(current)
    ensures AllWords(ws)
    ensures ws == [] <==> current == "" && AllSpace(s)
    decreases |s|
  {
    if s == "" then Flush(current)
    else if IsSpace(s[0]) then
      Flush(current) + SplitFrom(s[1..], "")
    else
      SplitFrom(s[1..], current + [s[0]])
  }

  /** text.split(): the words of s, in order; a string of whitespace only has none. */
  function Words(s: string): (ws: seq<string>)
    ensures AllWords(ws)
    ensures ws == [] <==> AllSpace(s)
  {
    SplitFrom(s, "")
  }

  /** " ".join(ws): the line wrap_text builds from ws by appending each word after one space
      (main.py:14). */
  function JoinSpace(ws: seq<string>): string {
    if |ws| == 0 then ""
    else if |ws| == 1 then ws[0]
    else JoinSpace(ws[..|ws| - 1]) + " " + ws[|ws| - 1]
  }

  /** Joining words gives the empty string only for no words. */
  lemma JoinEmpty(ws: seq<string>)
    requires AllWords(ws)
    ensures JoinSpace(ws) == "" <==> ws == []
  {
    if |ws| > 0 {
      assert IsWord(ws[|ws| - 1]);
    }
  }

  /** Joining two non-empty runs of words puts exactly one space between them. */
  lemma {:induction false} JoinAppend(a: seq<string>, b: seq<string>)
    requires a != [] && b != []
    ensures JoinSpace(a + b) == JoinSpace(a) + " " + JoinSpace(b)
    decreases |b|
  {
    var ab := a + b;
    assert ab[..|ab| - 1] == a + b[..|b| - 1];
    if |b| == 1 {
      assert ab[..|ab| - 1] == a;
    } else {
      JoinAppend(a, b[..|b| - 1]);
    }
  }

  /** A run of non-space characters continues the current word to the end of the input. */
  lemma {:induction false} SplitWord(w: string, current: string)
    requires NoSpace(w) && NoSpace(current) && current + w != ""
    ensures SplitFrom(w, current) == [current + w]
    decreases |w|
  {
    if w == "" {
      assert current + w == current;
    } else {
      assert current + w == (current + [w[0]]) + w[1..];
      SplitWord(w[1..], current + [w[0]]);
    }
  }

  /** A whitespace character ends whatever word was being read. */
  lemma {:induction false} SplitAtSpace(s: string, t: string, current: string)
    requires NoSpace(current) && t != "" && IsSpace(t[0])
    ensures SplitFrom(s + t, current) == SplitFrom(s, current) + SplitFrom(t[1..], "")
    decreases |s|
  {
    if s == "" {
      assert s + t == t;
    } else {
      assert (s + t)[1..] == s[1..] + t;
      SplitAtSpace(s[1..], t, if IsSpace(s[0]) then "" else current + [s[0]]);
    }
  }

  /** Splitting undoes joining: str.split() of " ".join(ws) is ws for any list of words. */
  lemma {:induction false} WordsOfJoin(ws: seq<string>)
    requires AllWords(ws)
    ensures Words(JoinSpace(ws)) == ws
    decreases |ws|
  {
    if |ws| == 1 {
      assert IsWord(ws[0]);
      SplitWord(ws[0], "");
      assert "" + ws[0] == ws[0];
    } else if |ws| > 1 {
      var init, last := ws[..|ws| - 1], ws[|ws| - 1];
      assert IsWord(last);
      WordsOfJoin(init);
      assert JoinSpace(ws) == JoinSpace(init) + (" " + last);
      SplitAtSpace(JoinSpace(init), " " + last, "");
      assert (" " + last)[1..] == last;
      SplitWord(last, "");
      assert "" + last == last;
      assert init + [last] == ws;
    }
  }

  /** s with leading and trailing whitespace dropped and every inner run of whitespace
      replaced by one ' ', read character by character: `started` once a word has begun,
      `gap` once whitespace has followed it. */
  function CollapseFrom(s: string, started: bool, gap: bool): string
    decreases |s|
  {
    if s == "" then ""
    else if IsSpace(s[0]) then CollapseFrom(s[1..], started, started)
    else (if gap then " " else "") + [s[0]] + CollapseFrom(s[1..], true, false)
  }

  function Collapse(s: string): string {
    CollapseFrom(s, false, false)
  }

  /** Joining a word in front of more words. */
  lemma JoinCons(w: string, ws: seq<string>)
    ensures JoinSpace([w] + ws) == if ws == [] then w else w + " " + JoinSpace(ws)
  {
    if ws == [] {
      assert [w] + ws == [w];
    } else {
      JoinAppend([w], ws);
    }
  }

  /** A pending gap after a word becomes one space, if any word follows. */
  lemma {:induction false} CollapseGap(s: string)
    ensures CollapseFrom(s, true, true) == if AllSpace(s) then "" else " " + CollapseFrom(s, false, false)
    decreases |s|
  {
    if s != "" {
      CollapseGap(s[1..]);
      assert AllSpace(s) <==> IsSpace(s[0]) && AllSpace(s[1..]);
    }
  }

  /** Splitting then joining, in the middle of a word. */
  lemma {:induction false} JoinSplitWord(s: string, current: string)
    requires IsWord(current)
    ensures JoinSpace(SplitFrom(s, current)) == current + CollapseFrom(s, true, false)
    decreases |s|
  {
    if s == "" {
      assert JoinSpace([current]) == current;
    } else if IsSpace(s[0]) {
      var rest := SplitFrom(s[1..], "");
      calc {
        JoinSpace(SplitFrom(s, current));
      == { assert SplitFrom(s, current) == [current] + rest; }
        JoinSpace([current] + rest);
      == { JoinCons(current, rest); JoinSplit(s[1..]); }
        if rest == [] then current else current + " " + CollapseFrom(s[1..], false, false);
      == { CollapseGap(s[1..]); }
        current + CollapseFrom(s[1..], true, true);
      }
    } else {
      var w, tail := current + [s[0]], CollapseFrom(s[1..], true, false);
      calc {
        JoinSpace(SplitFrom(s, current));
      == { assert SplitFrom(s, current) == SplitFrom(s[1..], w); }
        JoinSpace(SplitFrom(s[1..], w));
      == { assert IsWord(w); JoinSplitWord(s[1..], w); }
        w + tail;
      == { assert CollapseFrom(s, true, false) == "" + [s[0]] + tail; }
        current + CollapseFrom(s, true, false);
      }
    }
  }

  /** Splitting then joining, between words. */
  lemma {:induction false} JoinSplit(s: string)
    ensures JoinSpace(SplitFrom(s, "")) == CollapseFrom(s, false, false)
    decreases |s|
  {
    if s != "" {
      if IsSpace(s[0]) {
        assert SplitFrom(s, "") == [] + SplitFrom(s[1..], "");
        assert [] + SplitFrom(s[1..], "") == SplitFrom(s[1..], "");
        JoinSplit(s[1..]);
      } else {
        var w := [s[0]];
        assert "" + w == w;
        assert SplitFrom(s, "") == SplitFrom(s[1..], w);
        JoinSplitWord(s[1..], w);
        assert CollapseFrom(s, false, false) == "" + w + CollapseFrom(s[1..], true, false);
        assert "" + w + CollapseFrom(s[1..], true, false) == w + CollapseFrom(s[1..], true, false);
      }
    }
  }

  /** " ".join(text.split()) collapses the whitespace of text: it drops the leading and
      trailing whitespace and turns every inner run of it into one space. */
  lemma WordsCollapse(s: string)
    ensures JoinSpace(Words(s)) == Collapse(s)
  {
    JoinSplit(s);
  }
}
