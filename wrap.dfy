/** The greedy word wrapper `wrap_text` (main.py:9-24). */
module Wrap {
  import opened Text
  import opened Fonts

  /** The candidate line of main.py:14: the current line, a space if it is non-empty, and the word. */
  function Extend(current: string, word: string): string {
    current + (if current != "" then " " else "") + word
  }

  /** The lines the loop of main.py:13-23 still emits, given the words left and the current line. */
  function WrapFrom(m: Measure, font: Font, maxWidth: int, words: seq<string>, current: string): seq<string>
    decreases |words|
  {
    if words == [] then Flush(current)
    else
      var candidate := Extend(current, words[0]);
      if m(candidate, font).w <= maxWidth then
        WrapFrom(m, font, maxWidth, words[1..], candidate)
      else
        Flush(current) + WrapFrom(m, font, maxWidth, words[1..], words[0])
  }

  /** The lines `wrap_text` returns for `text`. */
  function Wrap(m: Measure, font: Font, maxWidth: int, text: string): seq<string> {
    WrapFrom(m, font, maxWidth, Words(text), "")
  }

  /** wrap_text(text, font, draw, max_width), with `m` standing for draw.textbbox. */
  method WrapText(text: string, font: Font, m: Measure, maxWidth: int) returns (lines: seq<string>)
    ensures lines == Wrap(m, font, maxWidth, text)
  {
    var words := Words(text);
    lines := [];
    var current := "";
    for i := 0 to |words|
      invariant lines + WrapFrom(m, font, maxWidth, words[i..], current) == Wrap(m, font, maxWidth, text)
    {
      assert words[i..][1..] == words[i + 1..];
      var candidate := current + (if current != "" then " " else "") + words[i];
      var w := m(candidate, font).w;
      if w <= maxWidth {
        current := candidate;
      } else {
        if current != "" {
          lines := lines + [current];
        }
        current := words[i];
      }
    }
    if current != "" {
      lines := lines + [current];
    }
  }

  /** The words of each line, in line order. */
  function LineWords(lines: seq<string>): seq<string> {
    if lines == [] then [] else Words(lines[0]) + LineWords(lines[1..])
  }

  /** A line is one or more words joined by single spaces. */
  predicate IsLine(line: string) {
    Words(line) != [] && JoinSpace(Words(line)) == line
  }

  /** A line of two or more words is no wider than the maximum width. */
  predicate FitsUnlessOneWord(m: Measure, font: Font, maxWidth: int, line: string) {
    |Words(line)| >= 2 ==> m(line, font).w <= maxWidth
  }

  /** The next line's first word would not have fitted on `line`. */
  predicate FullBefore(m: Measure, font: Font, maxWidth: int, line: string, next: string) {
    Words(next) != [] && m(line + " " + Words(next)[0], font).w > maxWidth
  }

  /** Every line is whole words joined by single spaces. */
  predicate AllLines(lines: seq<string>) {
    forall i :: 0 <= i < |lines| ==> IsLine(lines[i])
  }

  /** Only one-word lines exceed the maximum width. */
  predicate NoOverflow(m: Measure, font: Font, maxWidth: int, lines: seq<string>) {
    forall i :: 0 <= i < |lines| ==> FitsUnlessOneWord(m, font, maxWidth, lines[i])
  }

  /** Each line break is forced: the next word would not have fitted. */
  predicate Greedy(m: Measure, font: Font, maxWidth: int, lines: seq<string>) {
    forall i :: 0 <= i < |lines| - 1 ==> FullBefore(m, font, maxWidth, lines[i], lines[i + 1])
  }

  /** The candidate line of the loop is the current group of words with the next word added. */
  lemma ExtendJoin(current: string, group: seq<string>, w: string)
    requires AllWords(group) && current == JoinSpace(group)
    ensures Extend(current, w) == JoinSpace(group + [w])
  {
    JoinEmpty(group);
    var grown := group + [w];
    assert grown[..|grown| - 1] == group;
  }

  lemma ConsLines(line: string, rest: seq<string>)
    ensures LineWords([line] + rest) == Words(line) + LineWords(rest)
    ensures AllLines([line] + rest) <==> IsLine(line) && AllLines(rest)
  {
    assert ([line] + rest)[1..] == rest;
    assert forall i :: 0 < i < |rest| + 1 ==> ([line] + rest)[i] == rest[i - 1];
  }

  /** The invariant of the wrapping loop: whatever is emitted from here on regroups the words
      of the current line (`group`) and the words left, in order, each line being one or more
      whole words joined by single spaces. */
  lemma {:induction false} WrapFromWords(m: Measure, font: Font, maxWidth: int, words: seq<string>,
                                         current: string, group: seq<string>)
    requires AllWords(words) && AllWords(group) && current == JoinSpace(group)
    ensures LineWords(WrapFrom(m, font, maxWidth, words, current)) == group + words
    ensures AllLines(WrapFrom(m, font, maxWidth, words, current))
    decreases |words|
  {
    var r := WrapFrom(m, font, maxWidth, words, current);
    JoinEmpty(group);
    if group != [] {
      WordsOfJoin(group);
      assert IsLine(current);
    }
    if words == [] {
      if group != [] {
        assert r == [current] + [];
        ConsLines(current, []);
        assert group + words == group + [];
      }
    } else {
      var w, rest := words[0], words[1..];
      var grown := group + [w];
      ExtendJoin(current, group, w);
      assert grown + rest == group + words;
      if m(Extend(current, w), font).w <= maxWidth {
        assert r == WrapFrom(m, font, maxWidth, rest, Extend(current, w));
        WrapFromWords(m, font, maxWidth, rest, Extend(current, w), grown);
      } else {
        var r' := WrapFrom(m, font, maxWidth, rest, w);
        assert r == Flush(current) + r';
        assert JoinSpace([w]) == w;
        WrapFromWords(m, font, maxWidth, rest, w, [w]);
        assert [w] + rest == words;
        if group != [] {
          assert r == [current] + r';
          ConsLines(current, r');
        } else {
          assert r == r';
        }
      }
    }
  }

  /** The first line emitted starts with the first pending word, and the loop emits at most one
      line per pending word, the current line counting as one. */
  lemma {:induction false} WrapFromFirst(m: Measure, font: Font, maxWidth: int, words: seq<string>,
                                         current: string, group: seq<string>)
    requires AllWords(words) && AllWords(group) && current == JoinSpace(group)
    ensures group + words != [] ==> WrapFrom(m, font, maxWidth, words, current) != []
    ensures group + words != [] ==> (Words(WrapFrom(m, font, maxWidth, words, current)[0]) != []
      && Words(WrapFrom(m, font, maxWidth, words, current)[0])[0] == (group + words)[0])
    ensures |WrapFrom(m, font, maxWidth, words, current)| <= |words| + (if group == [] then 0 else 1)
    decreases |words|
  {
    var r := WrapFrom(m, font, maxWidth, words, current);
    JoinEmpty(group);
    if group != [] {
      WordsOfJoin(group);
    }
    if words == [] {
      assert group + words == group;
    } else {
      var w, rest := words[0], words[1..];
      var grown := group + [w];
      ExtendJoin(current, group, w);
      assert grown + rest == group + words;
      if m(Extend(current, w), font).w <= maxWidth {
        assert r == WrapFrom(m, font, maxWidth, rest, Extend(current, w));
        WrapFromFirst(m, font, maxWidth, rest, Extend(current, w), grown);
      } else {
        var r' := WrapFrom(m, font, maxWidth, rest, w);
        assert r == Flush(current) + r';
        assert JoinSpace([w]) == w;
        WrapFromFirst(m, font, maxWidth, rest, w, [w]);
        assert [w] + rest == words;
      }
    }
  }

  /** Only a line of one word leaves the loop wider than the maximum width. */
  lemma {:induction false} WrapFromFits(m: Measure, font: Font, maxWidth: int, words: seq<string>,
                                        current: string, group: seq<string>)
    requires AllWords(words) && AllWords(group) && current == JoinSpace(group)
    requires |group| >= 2 ==> m(current, font).w <= maxWidth
    ensures NoOverflow(m, font, maxWidth, WrapFrom(m, font, maxWidth, words, current))
    decreases |words|
  {
    var r := WrapFrom(m, font, maxWidth, words, current);
    JoinEmpty(group);
    if words == [] {
      if group != [] {
        WordsOfJoin(group);
        assert r == [current];
      }
    } else {
      var w, rest := words[0], words[1..];
      ExtendJoin(current, group, w);
      if m(Extend(current, w), font).w <= maxWidth {
        assert r == WrapFrom(m, font, maxWidth, rest, Extend(current, w));
        WrapFromFits(m, font, maxWidth, rest, Extend(current, w), group + [w]);
      } else {
        var r' := WrapFrom(m, font, maxWidth, rest, w);
        assert r == Flush(current) + r';
        assert JoinSpace([w]) == w;
        WrapFromFits(m, font, maxWidth, rest, w, [w]);
        if group != [] {
          WordsOfJoin(group);
          assert r == [current] + r';
          forall i | 0 <= i < |r| ensures FitsUnlessOneWord(m, font, maxWidth, r[i]) {
            if i > 0 { assert r[i] == r'[i - 1]; }
          }
        }
      }
    }
  }

  /** Greedy filling: the loop breaks a line only where the next word would not have fitted. */
  lemma {:induction false} WrapFromGreedy(m: Measure, font: Font, maxWidth: int, words: seq<string>,
                                          current: string, group: seq<string>)
    requires AllWords(words) && AllWords(group) && current == JoinSpace(group)
    ensures Greedy(m, font, maxWidth, WrapFrom(m, font, maxWidth, words, current))
    decreases |words|
  {
    var r := WrapFrom(m, font, maxWidth, words, current);
    JoinEmpty(group);
    if words != [] {
      var w, rest := words[0], words[1..];
      ExtendJoin(current, group, w);
      if m(Extend(current, w), font).w <= maxWidth {
        assert r == WrapFrom(m, font, maxWidth, rest, Extend(current, w));
        WrapFromGreedy(m, font, maxWidth, rest, Extend(current, w), group + [w]);
      } else {
        var r' := WrapFrom(m, font, maxWidth, rest, w);
        assert r == Flush(current) + r';
        assert JoinSpace([w]) == w;
        WrapFromGreedy(m, font, maxWidth, rest, w, [w]);
        WrapFromFirst(m, font, maxWidth, rest, w, [w]);
        if group != [] {
          assert r == [current] + r';
          forall i | 0 <= i < |r| - 1
            ensures FullBefore(m, font, maxWidth, r[i], r[i + 1])
          {
            if i > 0 {
              assert r[i] == r'[i - 1] && r[i + 1] == r'[i];
            } else {
              assert r[1] == r'[0];
              assert Words(r'[0])[0] == ([w] + rest)[0];
            }
          }
        }
      }
    }
  }

  /** Nothing is dropped, reordered or split: the lines' words, in order, are the words of the
      text, and each line is its words joined by single spaces. */
  lemma WrapKeepsWords(m: Measure, font: Font, maxWidth: int, text: string)
    ensures LineWords(Wrap(m, font, maxWidth, text)) == Words(text)
    ensures AllLines(Wrap(m, font, maxWidth, text))
  {
    WrapFromWords(m, font, maxWidth, Words(text), "", []);
  }

  /** Only a line of a single word may be wider than the maximum width. */
  lemma WrapFits(m: Measure, font: Font, maxWidth: int, text: string)
    ensures NoOverflow(m, font, maxWidth, Wrap(m, font, maxWidth, text))
  {
    WrapFromFits(m, font, maxWidth, Words(text), "", []);
  }

  /** Greedy filling: a line ends only where adding the next line's first word would exceed
      the maximum width. */
  lemma WrapGreedy(m: Measure, font: Font, maxWidth: int, text: string)
    ensures Greedy(m, font, maxWidth, Wrap(m, font, maxWidth, text))
  {
    WrapFromGreedy(m, font, maxWidth, Words(text), "", []);
  }

  /** Text without a non-whitespace character gives no lines; every line is non-empty; there are
      never more lines than words. */
  lemma WrapCounts(m: Measure, font: Font, maxWidth: int, text: string)
    ensures Wrap(m, font, maxWidth, text) == [] <==> AllSpace(text)
    ensures forall line <- Wrap(m, font, maxWidth, text) :: line != ""
    ensures |Wrap(m, font, maxWidth, text)| <= |Words(text)|
  {
    var lines := Wrap(m, font, maxWidth, text);
    WrapFromWords(m, font, maxWidth, Words(text), "", []);
    WrapFromFirst(m, font, maxWidth, Words(text), "", []);
    assert [] + Words(text) == Words(text);
    forall i | 0 <= i < |lines| ensures lines[i] != "" {
      assert IsLine(lines[i]);
      JoinEmpty(Words(lines[i]));
    }
  }

  /** Joining the lines as a sentence gives the text with its whitespace runs collapsed. */
  lemma {:induction false} JoinLines(lines: seq<string>)
    requires AllLines(lines)
    ensures JoinSpace(lines) == JoinSpace(LineWords(lines))
    decreases |lines|
  {
    if lines != [] {
      var head, rest := lines[0], lines[1..];
      assert IsLine(head);
      if rest == [] {
        assert LineWords(lines) == Words(head) + LineWords([]);
        assert Words(head) + [] == Words(head);
        assert JoinSpace(lines) == head;
      } else {
        assert forall i :: 0 <= i < |rest| ==> rest[i] == lines[i + 1];
        JoinLines(rest);
        assert IsLine(rest[0]);
        assert LineWords(rest) == Words(rest[0]) + LineWords(rest[1..]);
        assert lines == [head] + rest;
        JoinAppend([head], rest);
        assert JoinSpace([head]) == head;
        JoinAppend(Words(head), LineWords(rest));
      }
    }
  }

  /** " ".join(wrap_text(...)) == " ".join(text.split()). */
  lemma WrapJoin(m: Measure, font: Font, maxWidth: int, text: string)
    ensures JoinSpace(Wrap(m, font, maxWidth, text)) == JoinSpace(Words(text))
  {
    WrapFromWords(m, font, maxWidth, Words(text), "", []);
    assert [] + Words(text) == Words(text);
    JoinLines(Wrap(m, font, maxWidth, text));
  }

  /** While every growing prefix of the words fits, the loop keeps a single current line. */
  lemma {:induction false} WrapFromAllFit(m: Measure, font: Font, maxWidth: int, words: seq<string>,
                                          current: string, group: seq<string>)
    requires AllWords(words) && AllWords(group) && current == JoinSpace(group)
    requires group + words != []
    requires forall k :: |group| < k <= |group + words| ==> m(JoinSpace((group + words)[..k]), font).w <= maxWidth
    ensures WrapFrom(m, font, maxWidth, words, current) == [JoinSpace(group + words)]
    decreases |words|
  {
    JoinEmpty(group);
    if words == [] {
      assert group + words == group;
    } else {
      var w := words[0];
      var grown := group + [w];
      ExtendJoin(current, group, w);
      assert (group + words)[..|grown|] == grown;
      assert grown + words[1..] == group + words;
      WrapFromAllFit(m, font, maxWidth, words[1..], JoinSpace(grown), grown);
    }
  }

  /** Text whose every prefix of words fits comes back as one line: the text with its
      whitespace collapsed to single spaces. */
  lemma WrapOneLine(m: Measure, font: Font, maxWidth: int, text: string)
    requires Words(text) != []
    requires forall k :: 1 <= k <= |Words(text)| ==> m(JoinSpace(Words(text)[..k]), font).w <= maxWidth
    ensures Wrap(m, font, maxWidth, text) == [JoinSpace(Words(text))]
  {
    var ws := Words(text);
    assert [] + ws == ws;
    WrapFromAllFit(m, font, maxWidth, ws, "", []);
  }
}
