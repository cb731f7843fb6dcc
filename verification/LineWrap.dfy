/** The greedy line wrapper of the agent-file printer, and its optimality. */
module LineWrap {
  import opened Text

  function Flatten<T>(parts: seq<seq<T>>): seq<T> {
    if parts == [] then [] else Flatten(parts[..|parts| - 1]) + parts[|parts| - 1]
  }

  function Line(words: seq<string>): string {
    Join(" ", words)
  }

  /** The wrapper's rule: only a line of a single word may exceed the width. */
  predicate Fits(words: seq<string>, width: int) {
    |words| >= 2 ==> |Line(words)| <= width
  }

  /** `parts` cuts `words` into consecutive non-empty lines that obey the rule. */
  ghost predicate IsLayout(words: seq<string>, parts: seq<seq<string>>, width: int) {
    && Flatten(parts) == words
    && forall p :: p in parts ==> p != [] && Fits(p, width)
  }

  /** A layout needs at least `full + 1` lines, and if it has exactly that many it keeps
      at least `open` words on its last line. */
  predicate NoShorter(parts: seq<seq<string>>, full: nat, open: nat) {
    && full + 1 <= |parts|
    && (full + 1 == |parts| ==> open <= |parts[|parts| - 1]|)
  }

  /** No layout of `words` is ahead of `full` closed lines and `open` words on the next one. */
  ghost predicate StaysAhead(words: seq<string>, full: nat, open: nat, width: int) {
    words != [] ==> forall parts :: IsLayout(words, parts, width) ==> NoShorter(parts, full, open)
  }

  /** What the loop knows after the words `done`: `groups` are the closed lines. */
  ghost predicate Progress(done: seq<string>, groups: seq<seq<string>>, current: seq<string>, width: int) {
    && Flatten(groups) + current == done
    && (forall g :: g in groups ==> g != [] && Fits(g, width))
    && Fits(current, width)
    && (current == [] ==> groups == [])
    && StaysAhead(done, |groups|, |current|, width)
  }

  /** All the words of a list of lines. */
  function WordsOfLines(lines: seq<string>): seq<string> {
    if lines == [] then []
    else WordsOfLines(lines[..|lines| - 1]) + Words(lines[|lines| - 1])
  }

  /** The greedy cut: the closed lines and the words of the open one. */
  function Greedy(words: seq<string>, width: int): (seq<seq<string>>, seq<string>) {
    if words == [] then ([], [])
    else
      var (groups, current) := Greedy(words[..|words| - 1], width);
      var word := words[|words| - 1];
      if |Line(current)| + |word| + 1 > width && current != [] then (groups + [current], [word])
      else (groups, current + [word])
  }

  /** The greedy layout: the open line counts unless it is empty. */
  function Cut(words: seq<string>, width: int): seq<seq<string>> {
    var (groups, current) := Greedy(words, width);
    if current == [] then groups else groups + [current]
  }

  /** The lines the wrapper prints for a text. */
  function Wrapped(text: string, width: int): seq<string> {
    Lines(Cut(Words(text), width))
  }

  method WrapToLines(text: string, width: int) returns (lines: seq<string>)
    ensures lines == Wrapped(text, width)
    ensures WordsOfLines(lines) == Words(text)
    ensures forall l :: l in lines ==> l == Line(Words(l)) && Words(l) != [] && Fits(Words(l), width)
    ensures forall parts :: IsLayout(Words(text), parts, width) ==> |lines| <= |parts|
  {
    var words := Words(text);
    lines := [];
    var current: seq<string> := [];
    var currentLen := 0;
    ghost var groups: seq<seq<string>> := [];
    for i := 0 to |words|
      invariant (groups, current) == Greedy(words[..i], width)
      invariant lines == Lines(groups)
      invariant currentLen == |Line(current)| && (currentLen == 0 <==> current == [])
    {
      var word := words[i];
      assert word in words && IsWord(word);
      assert words[..i + 1][..i] == words[..i];
      LineOfAppended(current, word);
      if currentLen + |word| + 1 > width && current != [] {
        LinesAppend(groups, current);
        lines := lines + [Line(current)];
        groups := groups + [current];
        current := [word];
        currentLen := |word|;
      } else {
        current := current + [word];
        currentLen := currentLen + |word| + (if currentLen > 0 then 1 else 0);
      }
    }
    assert words[..|words|] == words;
    if current != [] {
      LinesAppend(groups, current);
      lines := lines + [Line(current)];
    }
    WrappedIsOptimal(text, width);
  }

  /** The words survive in order, no line of two or more words exceeds the width, and
      no other layout of the words uses fewer lines. */
  lemma WrappedIsOptimal(text: string, width: int)
    ensures var lines := Wrapped(text, width);
      && WordsOfLines(lines) == Words(text)
      && (forall l :: l in lines ==> l == Line(Words(l)) && Words(l) != [] && Fits(Words(l), width))
      && (forall parts :: IsLayout(Words(text), parts, width) ==> |lines| <= |parts|)
  {
    CutIsLayout(Words(text), width);
    CutIsShortest(Words(text), width);
    LayoutLines(Words(text), Cut(Words(text), width), width);
  }

  lemma CutIsLayout(words: seq<string>, width: int)
    ensures IsLayout(words, Cut(words, width), width)
  {
    var (groups, current) := Greedy(words, width);
    GreedyProgress(words, width);
    FlattenAppend(groups, current);
    assert current == [] ==> Flatten(groups) == words;
  }

  lemma CutIsShortest(words: seq<string>, width: int)
    ensures forall parts :: IsLayout(words, parts, width) ==> |Cut(words, width)| <= |parts|
  {
    var (groups, current) := Greedy(words, width);
    GreedyProgress(words, width);
    forall parts | IsLayout(words, parts, width)
      ensures |Cut(words, width)| <= |parts|
    {
      if words != [] {
        assert NoShorter(parts, |groups|, |current|);
      }
    }
  }

  /** The printed lines of a layout read back as its words. */
  lemma LayoutLines(words: seq<string>, parts: seq<seq<string>>, width: int)
    requires IsLayout(words, parts, width)
    requires forall w :: w in words ==> IsWord(w)
    ensures WordsOfLines(Lines(parts)) == words
    ensures forall l :: l in Lines(parts) ==> l == Line(Words(l)) && Words(l) != [] && Fits(Words(l), width)
  {
    LinesHoldGroups(parts);
    var lines := Lines(parts);
    forall l | l in lines
      ensures l == Line(Words(l)) && Words(l) != [] && Fits(Words(l), width)
    {
      var j :| 0 <= j < |lines| && lines[j] == l;
      assert parts[j] in parts;
    }
  }

  lemma {:induction false} GreedyProgress(words: seq<string>, width: int)
    ensures var (groups, current) := Greedy(words, width); Progress(words, groups, current, width)
  {
    if words != [] {
      var init, word := words[..|words| - 1], words[|words| - 1];
      assert init + [word] == words;
      var (groups, current) := Greedy(init, width);
      GreedyProgress(init, width);
      if |Line(current)| + |word| + 1 > width && current != [] {
        BreakLine(init, groups, current, word, width);
      } else {
        AppendWord(init, groups, current, word, width);
      }
    }
  }

  /** Folding the printed lines back with single spaces, as a `>-` block scalar does
      (section 8.1.3 of YAML 1.2.2), yields the text with its whitespace normalised. */
  lemma WrappedFoldsBack(text: string, width: int)
    ensures Join(" ", Wrapped(text, width)) == Join(" ", Words(text))
    ensures Words(Join(" ", Wrapped(text, width))) == Words(text)
  {
    WrappedIsOptimal(text, width);
    FoldWords(Wrapped(text, width));
    WordsOfJoin(Words(text));
  }

  lemma {:induction false} FoldWords(lines: seq<string>)
    requires forall l :: l in lines ==> l == Line(Words(l)) && Words(l) != []
    ensures Join(" ", lines) == Join(" ", WordsOfLines(lines))
    ensures lines != [] ==> WordsOfLines(lines) != []
  {
    if lines != [] {
      var init, last := lines[..|lines| - 1], lines[|lines| - 1];
      assert last in lines;
      FoldWords(init);
      if init == [] {
        assert WordsOfLines(lines) == Words(last);
      } else {
        JoinConcat(" ", WordsOfLines(init), Words(last));
      }
    }
  }

  function Lines(groups: seq<seq<string>>): (lines: seq<string>)
    ensures |lines| == |groups|
  {
    seq(|groups|, i requires 0 <= i < |groups| => Line(groups[i]))
  }

  lemma LinesAppend(groups: seq<seq<string>>, g: seq<string>)
    ensures Lines(groups + [g]) == Lines(groups) + [Line(g)]
  {}

  lemma FlattenAppend<T>(parts: seq<seq<T>>, part: seq<T>)
    ensures Flatten(parts + [part]) == Flatten(parts) + part
  {
    assert (parts + [part])[..|parts + [part]| - 1] == parts;
  }

  lemma LineOfAppended(words: seq<string>, word: string)
    ensures Line(words + [word]) == if words == [] then word else Line(words) + " " + word
  {
    assert words != [] ==> (words + [word])[..|words|] == words;
  }

  lemma {:induction false} LineOfSuffix(a: seq<string>, b: seq<string>)
    requires b != []
    ensures |Line(b)| <= |Line(a + b)|
  {
    if a == [] {
      assert a + b == b;
    } else {
      JoinConcat(" ", a, b);
    }
  }

  /** Dropping the last word of a layout leaves a layout of the words before it. */
  lemma DropLastWord(words: seq<string>, word: string, parts: seq<seq<string>>, width: int)
    returns (shorter: seq<seq<string>>)
    requires IsLayout(words + [word], parts, width)
    ensures IsLayout(words, shorter, width)
    ensures parts != [] && var last := parts[|parts| - 1];
      && last != [] && last[|last| - 1] == word
      && if |last| == 1 then |shorter| == |parts| - 1
         else |shorter| == |parts| && shorter[|parts| - 1] == last[..|last| - 1]
  {
    var init, last := parts[..|parts| - 1], parts[|parts| - 1];
    assert last in parts;
    var m := |last| - 1;
    assert Flatten(init) + last == words + [word];
    assert last[m] == (Flatten(init) + last)[|words|] == word;
    assert Flatten(init) + last[..m] == (Flatten(init) + last)[..|words|] == words;
    assert forall p :: p in init ==> p in parts;
    if m == 0 {
      assert Flatten(init) == words;
      shorter := init;
    } else {
      shorter := init + [last[..m]];
      FlattenAppend(init, last[..m]);
      assert last == last[..m] + [word];
      LineOfAppended(last[..m], word);
    }
  }

  lemma LastIsSuffix(parts: seq<seq<string>>)
    requires parts != []
    ensures |parts[|parts| - 1]| <= |Flatten(parts)|
    ensures Flatten(parts)[|Flatten(parts)| - |parts[|parts| - 1]|..] == parts[|parts| - 1]
  {}

  lemma BreakLine(words: seq<string>, groups: seq<seq<string>>, current: seq<string>, word: string,
                  width: int)
    requires Progress(words, groups, current, width) && current != []
    requires |Line(current)| + |word| + 1 > width
    ensures Progress(words + [word], groups + [current], [word], width)
  {
    FlattenAppend(groups, current);
    forall parts | IsLayout(words + [word], parts, width)
      ensures NoShorter(parts, |groups| + 1, 1)
    {
      var shorter := DropLastWord(words, word, parts, width);
      var last := parts[|parts| - 1];
      assert last in parts;
      if |last| > 1 && |parts| == |groups| + 1 {
        LastIsSuffix(shorter);
        TooLong(Flatten(groups), current, word, last, width);
      }
    }
  }

  /** The word cannot sit on the last line of a layout that has no more lines than the
      greedy one: that line would hold at least the greedy line. */
  lemma TooLong(closed: seq<string>, current: seq<string>, word: string, last: seq<string>, width: int)
    requires |last| >= 2 && last[|last| - 1] == word && current != []
    requires |current| <= |last| - 1 <= |closed + current|
    requires (closed + current)[|closed + current| - (|last| - 1)..] == last[..|last| - 1]
    requires |Line(current)| + |word| + 1 > width
    ensures !Fits(last, width)
  {
    var tail := last[..|last| - 1];
    assert |Line(current)| <= |Line(tail)| by {
      SuffixesNest(closed, current, tail);
      LineOfSuffix(tail[..|tail| - |current|], current);
    }
    assert tail + [word] == last;
    LineOfAppended(tail, word);
  }

  lemma SuffixesNest<T>(a: seq<T>, b: seq<T>, tail: seq<T>)
    requires |b| <= |tail| <= |a + b|
    requires (a + b)[|a + b| - |tail|..] == tail
    ensures tail[..|tail| - |b|] + b == tail
  {
    assert tail[|tail| - |b|..] == b;
  }

  lemma AppendWord(words: seq<string>, groups: seq<seq<string>>, current: seq<string>, word: string,
                   width: int)
    requires Progress(words, groups, current, width)
    requires current == [] || |Line(current)| + |word| + 1 <= width
    ensures Progress(words + [word], groups, current + [word], width)
  {
    LineOfAppended(current, word);
    assert Flatten(groups) + (current + [word]) == words + [word];
    forall parts | IsLayout(words + [word], parts, width)
      ensures NoShorter(parts, |groups|, |current| + 1)
    {
      var shorter := DropLastWord(words, word, parts, width);
      assert parts[|parts| - 1] in parts;
      if words != [] {
        assert NoShorter(shorter, |groups|, |current|);
      }
    }
  }

  lemma {:induction false} LinesHoldGroups(groups: seq<seq<string>>)
    requires forall w :: w in Flatten(groups) ==> IsWord(w)
    ensures WordsOfLines(Lines(groups)) == Flatten(groups)
    ensures forall j :: 0 <= j < |groups| ==> Words(Lines(groups)[j]) == groups[j]
  {
    if groups != [] {
      var n := |groups| - 1;
      LinesHoldGroups(groups[..n]);
      assert groups == groups[..n] + [groups[n]];
      LinesAppend(groups[..n], groups[n]);
      assert Lines(groups)[..n] == Lines(groups[..n]);
      assert forall w :: w in groups[n] ==> w in Flatten(groups);
      WordsOfJoin(groups[n]);
    }
  }

  // ----- Where lines break -------------------------------------------------------------

  /** The line and a space leave no room for the first word of the next one. */
  predicate NoRoom(line: seq<string>, next: seq<string>, width: int) {
    next != [] && |Line(line)| + 1 + |next[0]| > width
  }

  /** Each closed line of a greedy cut, at its place, had no room for what came next. */
  lemma {:induction false} GreedyBreaks(words: seq<string>, width: int)
    ensures var (groups, current) := Greedy(words, width);
      && (groups != [] ==> NoRoom(groups[|groups| - 1], current, width))
      && forall k :: 0 < k < |groups| ==> NoRoom(groups[k - 1], groups[k], width)
  {
    if words != [] {
      GreedyBreaks(words[..|words| - 1], width);
    }
  }

  lemma CutBreaks(words: seq<string>, width: int, k: nat)
    requires k + 1 < |Cut(words, width)|
    ensures NoRoom(Cut(words, width)[k], Cut(words, width)[k + 1], width)
  {
    GreedyBreaks(words, width);
  }

  /** A line is closed only when the next word does not fit behind it: no printed line but the
      last has room for a space and the first word of the line after it. */
  lemma BreaksOnlyWhenFull(text: string, width: int, k: nat)
    requires k + 1 < |Wrapped(text, width)|
    ensures var lines := Wrapped(text, width);
      Words(lines[k + 1]) != [] && |lines[k]| + 1 + |Words(lines[k + 1])[0]| > width
  {
    var words := Words(text);
    CutBreaks(words, width, k);
    CutIsLayout(words, width);
    LinesHoldGroups(Cut(words, width));
  }
}
