/** Greedy wrapping of a text into lines, and why no other wrapping uses fewer. */
module LineWrapping {

  predicate IsWord(w: string) { ' ' !in w }

  /** The pieces that getline cuts at spaces: a final space ends the last piece, it does not open another. */
  function Words(str: string): seq<string> {
    if str == "" then []
    else
      var n := WordLength(str);
      if n == |str| then [str] else [str[..n]] + Words(str[n + 1..])
  }

  /** The number of characters before the first space. */
  function WordLength(str: string): (n: nat)
    ensures n <= |str| && IsWord(str[..n])
    ensures n < |str| ==> str[n] == ' '
  {
    if str == "" || str[0] == ' ' then 0
    else
      var n := 1 + WordLength(str[1..]);
      assert str[..n] == [str[0]] + str[1..][..n - 1];
      n
  }

  /** The words separated by single spaces. */
  function Join(words: seq<string>): string {
    if words == [] then "" else if |words| == 1 then words[0] else words[0] + " " + Join(words[1..])
  }

  /** One more word for the lines: on the last line if it fits, on a new one otherwise. */
  function Place(lines: seq<string>, word: string, lineLength: nat): seq<string> {
    var n := |lines| - 1;
    if n < 0 || |lines[n]| + |word| + 1 > lineLength then lines + [word]
    else lines[..n] + [lines[n] + " " + word]
  }

  function Wrap(lines: seq<string>, words: seq<string>, lineLength: nat): seq<string>
    decreases |words|
  {
    if words == [] then lines else Wrap(Place(lines, words[0], lineLength), words[1..], lineLength)
  }

  /** What is left of a text after its first word and the space that ends it. */
  function AfterWord(str: string): string {
    var n := WordLength(str);
    if n < |str| then str[n + 1..] else ""
  }

  lemma FirstWord(lines: seq<string>, str: string, lineLength: nat)
    requires str != ""
    ensures Wrap(lines, Words(str), lineLength)
         == Wrap(Place(lines, str[..WordLength(str)], lineLength), Words(AfterWord(str)), lineLength)
  {
    assert Words(str)[0] == str[..WordLength(str)] && Words(str)[1..] == Words(AfterWord(str));
  }

  method SplitLines(str: string, lineLength: nat) returns (lines: seq<string>)
    ensures lines == Wrap([], Words(str), lineLength)
    ensures forall layout :: Flatten(layout) == Words(str) && Fits(layout, lineLength) ==> |lines| <= |layout|
  {
    lines := [];
    var rest := str;
    while rest != ""
      invariant Wrap(lines, Words(rest), lineLength) == Wrap([], Words(str), lineLength)
      decreases |rest|
    {
      var word := rest[..WordLength(rest)];
      FirstWord(lines, rest, lineLength);
      rest := AfterWord(rest);
      var last := |lines| - 1;
      if last < 0 || |lines[last]| + |word| + 1 > lineLength {
        lines := lines + [word];
      } else {
        lines := lines[..last] + [lines[last] + " " + word];
      }
    }
    GreedyIsLineMinimal(str, lineLength);
  }

  // ---------------------------------------------------------------- the text is preserved

  lemma {:induction false} JoinAppend(words: seq<string>, word: string)
    requires words != []
    ensures Join(words + [word]) == Join(words) + " " + word
  {
    if |words| > 1 {
      assert (words + [word])[1..] == words[1..] + [word];
      JoinAppend(words[1..], word);
    } else {
      assert words + [word] == [words[0], word];
    }
  }

  lemma {:induction false} JoinConcat(a: seq<string>, b: seq<string>)
    requires a != [] && b != []
    ensures Join(a + b) == Join(a) + " " + Join(b)
    decreases |b|
  {
    var n := |b| - 1;
    assert a + b == (a + b[..n]) + [b[n]];
    if n > 0 {
      assert b == b[..n] + [b[n]];
      JoinConcat(a, b[..n]);
      JoinAppend(b[..n], b[n]);
      JoinAppend(a + b[..n], b[n]);
    } else {
      assert a + b == a + [b[0]];
      JoinAppend(a, b[0]);
    }
  }

  /** The words joined again are the text, less one trailing space. */
  lemma {:induction false} WordsPreserveText(str: string)
    ensures str == Join(Words(str)) + if str != "" && str[|str| - 1] == ' ' then " " else ""
    ensures forall w :: w in Words(str) ==> IsWord(w)
    decreases |str|
  {
    if str != "" {
      var n := WordLength(str);
      if n < |str| {
        var rest := str[n + 1..];
        assert str == str[..n] + " " + rest;
        WordsPreserveText(rest);
        assert Words(str) == [str[..n]] + Words(rest);
        if rest != "" {
          assert Words(rest) != [];
          JoinConcat([str[..n]], Words(rest));
        }
      }
    }
  }

  lemma JoinLongerLast(front: seq<string>, last: string, word: string)
    ensures Join(front + [last + " " + word]) == Join(front + [last]) + " " + word
  {
    if front != [] {
      JoinAppend(front, last);
      JoinAppend(front, last + " " + word);
    }
  }

  lemma PlacePreservesText(lines: seq<string>, word: string, lineLength: nat)
    ensures Join(Place(lines, word, lineLength)) == if lines == [] then word else Join(lines) + " " + word
    ensures Place(lines, word, lineLength) != []
  {
    var n := |lines| - 1;
    if n >= 0 {
      assert lines == lines[..n] + [lines[n]];
      JoinLongerLast(lines[..n], lines[n], word);
      JoinAppend(lines, word);
    }
  }

  lemma JoinSplit(words: seq<string>)
    requires |words| > 1
    ensures Join(words) == words[0] + " " + Join(words[1..])
  {
  }

  lemma {:induction false} WrapPreservesText(lines: seq<string>, words: seq<string>, lineLength: nat)
    ensures Join(Wrap(lines, words, lineLength))
         == if lines == [] then Join(words) else if words == [] then Join(lines) else Join(lines) + " " + Join(words)
    decreases |words|
  {
    if words != [] {
      var next := Place(lines, words[0], lineLength);
      PlacePreservesText(lines, words[0], lineLength);
      WrapPreservesText(next, words[1..], lineLength);
      if |words| > 1 {
        JoinSplit(words);
      }
    }
  }

  /** A line that does not fit is a single word. */
  ghost predicate FitOrSingle(lines: seq<string>, lineLength: nat) {
    forall i :: 0 <= i < |lines| ==> |lines[i]| <= lineLength || IsWord(lines[i])
  }

  lemma {:induction false} WrapFits(lines: seq<string>, words: seq<string>, lineLength: nat)
    requires FitOrSingle(lines, lineLength) && forall w :: w in words ==> IsWord(w)
    ensures FitOrSingle(Wrap(lines, words, lineLength), lineLength)
    decreases |words|
  {
    if words != [] {
      WrapFits(Place(lines, words[0], lineLength), words[1..], lineLength);
    }
  }

  /** Joining the lines gives the text back, but for one trailing space, and only single words overflow. */
  lemma WrappingKeepsText(str: string, lineLength: nat)
    ensures var lines := Wrap([], Words(str), lineLength);
            && str == Join(lines) + (if str != "" && str[|str| - 1] == ' ' then " " else "")
            && FitOrSingle(lines, lineLength)
  {
    WordsPreserveText(str);
    WrapPreservesText([], Words(str), lineLength);
    WrapFits([], Words(str), lineLength);
  }

  // ---------------------------------------------------------------- the lines are as few as possible

  function Flatten(layout: seq<seq<string>>): seq<string> {
    if layout == [] then [] else Flatten(layout[..|layout| - 1]) + layout[|layout| - 1]
  }

  /** A layout of words into consecutive lines: whatever shares a line must fit on it. */
  ghost predicate Fits(layout: seq<seq<string>>, lineLength: nat) {
    forall i :: 0 <= i < |layout| && |layout[i]| >= 2 ==> |Join(layout[i])| <= lineLength
  }

  function LastLength(lines: seq<string>): int { if lines == [] then 0 else |lines[|lines| - 1]| }

  /** The greedy lines are no further than a layout with that many lines, the last one that long. */
  ghost predicate Ahead(lines: seq<string>, count: int, length: int) {
    |lines| < count || (|lines| == count && LastLength(lines) <= length)
  }

  lemma PlaceOnNewLine(lines: seq<string>, word: string, lineLength: nat, count: int)
    requires |lines| <= count
    ensures Ahead(Place(lines, word, lineLength), count + 1, |word|)
  {
  }

  lemma PlaceOnSameLine(lines: seq<string>, word: string, lineLength: nat, count: int, length: int)
    requires Ahead(lines, count, length) && lines != [] && 0 <= length && length + |word| + 1 <= lineLength
    ensures Ahead(Place(lines, word, lineLength), count, length + |word| + 1)
  {
  }

  lemma {:induction false} WrapConcat(lines: seq<string>, a: seq<string>, b: seq<string>, lineLength: nat)
    ensures Wrap(lines, a + b, lineLength) == Wrap(Wrap(lines, a, lineLength), b, lineLength)
    decreases |a|
  {
    if a == [] {
      assert a + b == b;
    } else {
      assert (a + b)[1..] == a[1..] + b;
      WrapConcat(Place(lines, a[0], lineLength), a[1..], b, lineLength);
    }
  }

  lemma WrapOne(lines: seq<string>, word: string, lineLength: nat)
    ensures Wrap(lines, [word], lineLength) == Place(lines, word, lineLength)
  {
    assert [word][1..] == [];
  }

  lemma {:induction false} WrapNonempty(lines: seq<string>, words: seq<string>, lineLength: nat)
    requires lines != [] || words != []
    ensures Wrap(lines, words, lineLength) != []
    decreases |words|
  {
    if words != [] {
      WrapNonempty(Place(lines, words[0], lineLength), words[1..], lineLength);
    }
  }

  /** One line of the layout: the greedy loop stays ahead of it, word by word. */
  lemma {:induction false} StaysAheadOnLine(lines: seq<string>, line: seq<string>, lineLength: nat, count: int)
    requires |lines| <= count && (|line| >= 2 ==> |Join(line)| <= lineLength)
    ensures line != [] ==> Ahead(Wrap(lines, line, lineLength), count + 1, |Join(line)|)
    ensures |Wrap(lines, line, lineLength)| <= count + 1
    decreases |line|
  {
    var n := |line| - 1;
    if n >= 0 {
      assert line == line[..n] + [line[n]];
      WrapConcat(lines, line[..n], [line[n]], lineLength);
      var before := Wrap(lines, line[..n], lineLength);
      WrapOne(before, line[n], lineLength);
      if n == 0 {
        PlaceOnNewLine(lines, line[0], lineLength, count);
      } else {
        JoinAppend(line[..n], line[n]);
        StaysAheadOnLine(lines, line[..n], lineLength, count);
        WrapNonempty(lines, line[..n], lineLength);
        PlaceOnSameLine(before, line[n], lineLength, count + 1, |Join(line[..n])|);
      }
    }
  }

  lemma {:induction false} StaysAhead(layout: seq<seq<string>>, lineLength: nat)
    requires Fits(layout, lineLength)
    ensures |Wrap([], Flatten(layout), lineLength)| <= |layout|
    decreases |layout|
  {
    var n := |layout| - 1;
    if n >= 0 {
      StaysAhead(layout[..n], lineLength);
      WrapConcat([], Flatten(layout[..n]), layout[n], lineLength);
      StaysAheadOnLine(Wrap([], Flatten(layout[..n]), lineLength), layout[n], lineLength, n);
    }
  }

  /** No layout of the same words that fits uses fewer lines. */
  lemma GreedyIsLineMinimal(str: string, lineLength: nat)
    ensures forall layout :: Flatten(layout) == Words(str) && Fits(layout, lineLength) ==>
              |Wrap([], Words(str), lineLength)| <= |layout|
  {
    forall layout | Flatten(layout) == Words(str) && Fits(layout, lineLength)
      ensures |Wrap([], Words(str), lineLength)| <= |layout|
    {
      StaysAhead(layout, lineLength);
    }
  }

  lemma FlattenAppend(front: seq<seq<string>>, line: seq<string>)
    ensures Flatten(front + [line]) == Flatten(front) + line
  {
    var layout := front + [line];
    assert layout[..|layout| - 1] == front && layout[|layout| - 1] == line;
  }

  lemma OneMoreWord(words: seq<string>, line: seq<string>, word: string)
    ensures words + (line + [word]) == words + line + [word]
  {
  }

  lemma FlattenLongerLast(layout: seq<seq<string>>, word: string)
    requires layout != []
    ensures var m := |layout| - 1;
            Flatten(layout[..m] + [layout[m] + [word]]) == Flatten(layout) + [word]
  {
    var m := |layout| - 1;
    FlattenAppend(layout[..m], layout[m] + [word]);
    OneMoreWord(Flatten(layout[..m]), layout[m], word);
  }

  /** The layout puts on each line the words that the line shows. */
  ghost predicate Shows(layout: seq<seq<string>>, lines: seq<string>) {
    |layout| == |lines| && forall i :: 0 <= i < |layout| ==> layout[i] != [] && Join(layout[i]) == lines[i]
  }

  lemma PlaceShows(layout: seq<seq<string>>, lines: seq<string>, word: string, lineLength: nat)
    returns (longer: seq<seq<string>>)
    requires Shows(layout, lines) && Fits(layout, lineLength)
    ensures Shows(longer, Place(lines, word, lineLength)) && Fits(longer, lineLength)
    ensures Flatten(longer) == Flatten(layout) + [word]
  {
    var m := |lines| - 1;
    if m < 0 || |lines[m]| + |word| + 1 > lineLength {
      longer := layout + [[word]];
      FlattenAppend(layout, [word]);
    } else {
      JoinAppend(layout[m], word);
      longer := layout[..m] + [layout[m] + [word]];
      FlattenLongerLast(layout, word);
    }
  }

  /** The greedy lines are themselves such a layout, so the bound is reached. */
  lemma {:induction false} GreedyIsLayout(words: seq<string>, lineLength: nat) returns (layout: seq<seq<string>>)
    ensures Flatten(layout) == words && Fits(layout, lineLength)
    ensures Shows(layout, Wrap([], words, lineLength))
    decreases |words|
  {
    var n := |words| - 1;
    if n < 0 {
      layout := [];
    } else {
      var before := GreedyIsLayout(words[..n], lineLength);
      var lines := Wrap([], words[..n], lineLength);
      assert words == words[..n] + [words[n]];
      WrapConcat([], words[..n], [words[n]], lineLength);
      WrapOne(lines, words[n], lineLength);
      layout := PlaceShows(before, lines, words[n], lineLength);
    }
  }
}
