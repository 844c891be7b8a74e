/** Measuring and wrapping text in the notice's PDF (src/agents/pdf_writer.py):
    Windows-1252 encoding, Helvetica advance widths and the greedy word wrap. */
module PdfText {
  type byte = b: int | 0 <= b < 256

  // ----- encoding ---------------------------------------------------------------------

  /** The code points Windows-1252 puts at 0x80 to 0x9F; 0 where it has none. */
  const C1: seq<int> := [
    0x20AC, 0, 0x201A, 0x0192, 0x201E, 0x2026, 0x2020, 0x2021,
    0x02C6, 0x2030, 0x0160, 0x2039, 0x0152, 0, 0x017D, 0,
    0, 0x2018, 0x2019, 0x201C, 0x201D, 0x2022, 0x2013, 0x2014,
    0x02DC, 0x2122, 0x0161, 0x203A, 0x0153, 0, 0x017E, 0x0178]

  function FindC1(code: int, i: nat): (r: int)
    requires i <= |C1|
    ensures r == -1 || 0 <= r < |C1|
    decreases |C1| - i
  {
    if i == |C1| then -1 else if C1[i] == code && code != 0 then i else FindC1(code, i + 1)
  }

  /** One byte per character; what the code page lacks becomes a question mark. */
  function EncodeChar(c: char): byte {
    var code := c as int;
    if code < 0x80 || 0xA0 <= code < 0x100 then code
    else
      var i := FindC1(code, 0);
      if i >= 0 then 0x80 + i else 0x3F
  }

  function Encode(text: string): seq<byte> {
    seq(|text|, i requires 0 <= i < |text| => EncodeChar(text[i]))
  }

  // ----- measuring --------------------------------------------------------------------

  /** Helvetica advance widths for the codes 32 to 126, in 1/1000 em. */
  type Width = w: int | 191 <= w witness 556

  const HELVETICA: seq<Width> := [
    278, 278, 355, 556, 556, 889, 667, 191, 333, 333, 389, 584, 278, 333, 278, 278,
    556, 556, 556, 556, 556, 556, 556, 556, 556, 556, 278, 278, 584, 584, 584, 556,
    1015, 667, 667, 722, 722, 667, 611, 778, 722, 278, 500, 667, 556, 833, 722, 778,
    667, 778, 722, 667, 611, 722, 667, 944, 667, 667, 611, 278, 278, 278, 469, 556,
    333, 556, 556, 500, 556, 556, 278, 556, 556, 222, 222, 500, 222, 833, 556, 556,
    556, 556, 333, 500, 278, 556, 500, 722, 500, 500, 500, 334, 260, 334, 584]

  const DEFAULT_WIDTH: Width := 556

  function Advance(b: byte): Width {
    if 32 <= b <= 126 then HELVETICA[b - 32] else DEFAULT_WIDTH
  }

  function Units(text: string): int {
    if text == "" then 0 else Units(text[..|text| - 1]) + Advance(EncodeChar(text[|text| - 1]))
  }

  /** text_width's loop over the encoded bytes. */
  method CountUnits(text: string) returns (units: int)
    ensures units == Units(text)
  {
    units := 0;
    var bytes := Encode(text);
    for i := 0 to |bytes|
      invariant units == Units(text[..i])
    {
      assert text[..i + 1][..i] == text[..i];
      units := units + Advance(bytes[i]);
    }
    assert text[..|text|] == text;
  }

  /** How a line is set: bold text is measured a tenth wider. */
  datatype Setting = Setting(size: real, bold: bool, width: real)

  function Times(units: int, size: real): real {
    units as real * size
  }

  function TextWidth(text: string, size: real, bold: bool): real {
    Times(Units(text), size) / 1000.0 * (if bold then 1.1 else 1.0)
  }

  predicate Fits(text: string, s: Setting) {
    TextWidth(text, s.size, s.bold) <= s.width
  }

  lemma {:induction false} UnitsNatural(text: string)
    ensures Units(text) >= 0
  {
    if text != "" {
      UnitsNatural(text[..|text| - 1]);
    }
  }

  lemma {:induction false} UnitsOfConcat(a: string, b: string)
    ensures Units(a + b) == Units(a) + Units(b) && Units(a) >= 0
  {
    if b == "" {
      assert a + b == a;
      UnitsNatural(a);
    } else {
      assert (a + b)[..|a + b| - 1] == a + b[..|b| - 1];
      UnitsOfConcat(a, b[..|b| - 1]);
    }
  }

  lemma TimesMonotone(u: int, v: int, size: real)
    requires u <= v && size >= 0.0
    ensures Times(u, size) <= Times(v, size)
  {
  }

  /** A line with fewer units fits wherever a longer one does. */
  lemma FewerUnitsFit(a: string, b: string, s: Setting)
    requires s.size >= 0.0 && Units(a) <= Units(b) && Fits(b, s)
    ensures Fits(a, s)
  {
    TimesMonotone(Units(a), Units(b), s.size);
    hide Times;
  }

  lemma EmptyFits(s: Setting)
    requires s.width >= 0.0
    ensures Fits("", s)
  {
  }

  /** Nothing fits a negative width, not even the empty rest of a word: the loop that
      breaks a word, which ends when the rest fits, never ends. */
  lemma NothingFitsNegativeWidth(text: string, s: Setting)
    requires s.width < 0.0 && s.size >= 0.0
    ensures !Fits(text, s)
  {
    UnitsNatural(text);
    if Fits(text, s) {
      FewerUnitsFit("", text, s);
    }
  }

  // ----- words ------------------------------------------------------------------------

  predicate IsSpace(c: char) {
    var code := c as int;
    9 <= code <= 13 || 28 <= code <= 32 || code == 0x85 || code == 0xA0 || code == 0x1680 || 0x2000 <= code <= 0x200A
    || code == 0x2028 || code == 0x2029 || code == 0x202F || code == 0x205F || code == 0x3000
  }

  /** `str.split()`: the maximal runs without white space. */
  function Words(text: string): seq<string> {
    if text == "" then []
    else
      var n := |text| - 1;
      var before := Words(text[..n]);
      if IsSpace(text[n]) then before
      else if n == 0 || IsSpace(text[n - 1]) || before == [] then before + [[text[n]]]
      else before[..|before| - 1] + [before[|before| - 1] + [text[n]]]
  }

  function NonSpaces(text: string): string {
    if text == "" then ""
    else NonSpaces(text[..|text| - 1]) + (if IsSpace(text[|text| - 1]) then "" else [text[|text| - 1]])
  }

  function Flatten(pieces: seq<string>): string {
    if pieces == [] then "" else Flatten(pieces[..|pieces| - 1]) + pieces[|pieces| - 1]
  }

  predicate IsWord(w: string) {
    w != "" && forall i :: 0 <= i < |w| ==> !IsSpace(w[i])
  }

  lemma FlattenNext(pieces: seq<string>, p: string)
    ensures Flatten(pieces + [p]) == Flatten(pieces) + p
  {
    assert (pieces + [p])[..|pieces|] == pieces;
  }

  predicate AllWords(words: seq<string>) {
    forall i :: 0 <= i < |words| ==> IsWord(words[i])
  }

  /** A letter after a letter lengthens the last word. */
  lemma LongerWord(before: seq<string>, c: char)
    requires before != [] && AllWords(before) && !IsSpace(c)
    ensures var longer := before[..|before| - 1] + [before[|before| - 1] + [c]];
      AllWords(longer) && Flatten(longer) == Flatten(before) + [c]
  {
    hide IsSpace;
    var head, last := before[..|before| - 1], before[|before| - 1];
    assert before == head + [last] && IsWord(last);
    FlattenNext(head, last);
    FlattenNext(head, last + [c]);
    assert Flatten(head) + (last + [c]) == (Flatten(head) + last) + [c];
  }

  lemma NewWord(before: seq<string>, c: char)
    requires AllWords(before) && !IsSpace(c)
    ensures AllWords(before + [[c]]) && Flatten(before + [[c]]) == Flatten(before) + [c]
  {
    hide IsSpace;
    FlattenNext(before, [c]);
  }

  /** The words are all the text but its white space. */
  lemma {:induction false} WordsOfText(text: string)
    ensures AllWords(Words(text))
    ensures Flatten(Words(text)) == NonSpaces(text)
  {
    hide IsSpace, AllWords, Flatten;
    if text == "" {
      NoWords();
    } else {
      var n := |text| - 1;
      WordsOfText(text[..n]);
      var before := Words(text[..n]);
      if IsSpace(text[n]) {
        assert NonSpaces(text[..n]) + "" == NonSpaces(text[..n]);
      } else if n == 0 || IsSpace(text[n - 1]) || before == [] {
        NewWord(before, text[n]);
      } else {
        LongerWord(before, text[n]);
      }
    }
  }

  lemma NoWords()
    ensures AllWords([]) && Flatten([]) == ""
  {
  }

  lemma {:induction false} NonSpacesOfConcat(a: string, b: string)
    ensures NonSpaces(a + b) == NonSpaces(a) + NonSpaces(b)
  {
    if b == "" {
      assert a + b == a;
    } else {
      assert (a + b)[..|a + b| - 1] == a + b[..|b| - 1];
      NonSpacesOfConcat(a, b[..|b| - 1]);
    }
  }

  lemma {:induction false} WordsAreNonSpace(w: string)
    requires forall i :: 0 <= i < |w| ==> !IsSpace(w[i])
    ensures NonSpaces(w) == w
  {
    if w != "" {
      WordsAreNonSpace(w[..|w| - 1]);
      assert w == w[..|w| - 1] + [w[|w| - 1]];
    }
  }

  // ----- the wrap -----------------------------------------------------------------------

  /** The finished lines and the one being filled. */
  datatype Layout = Layout(lines: seq<string>, current: string)

  /** The longest prefix of `word` up to `cut` that fits, but at least one character. */
  function Cut(word: string, cut: nat, s: Setting): (r: nat)
    requires cut <= |word|
    ensures r <= cut && (cut > 0 ==> r > 0)
  {
    if cut > 1 && !Fits(word[..cut], s) then Cut(word, cut - 1, s) else cut
  }

  /** A word too long for a line: the pieces broken off, and the rest. */
  function Break(word: string, s: Setting): (r: (seq<string>, string))
    requires s.width >= 0.0
    decreases |word|
  {
    if Fits(word, s) || word == "" then ([], word)
    else
      var cut := Cut(word, |word|, s);
      var (pieces, rest) := Break(word[cut..], s);
      ([word[..cut]] + pieces, rest)
  }

  function Candidate(current: string, word: string): string {
    if current != "" then current + " " + word else word
  }

  function AddWord(l: Layout, word: string, s: Setting): Layout
    requires s.width >= 0.0
  {
    if Fits(Candidate(l.current, word), s) then Layout(l.lines, Candidate(l.current, word))
    else
      var (pieces, rest) := Break(word, s);
      Layout(l.lines + (if l.current != "" then [l.current] else []) + pieces, rest)
  }

  function LayOut(words: seq<string>, s: Setting): Layout
    requires s.width >= 0.0
  {
    if words == [] then Layout([], "") else AddWord(LayOut(words[..|words| - 1], s), words[|words| - 1], s)
  }

  /** The lines with the last one, and one empty line for an empty text. */
  function Closed(l: Layout): seq<string> {
    var lines := if l.current != "" then l.lines + [l.current] else l.lines;
    if lines == [] then [""] else lines
  }

  /** Fills each line with as many words as fit, and cuts up a word that fits no line. */
  method Wrap(text: string, s: Setting) returns (lines: seq<string>)
    requires s.width >= 0.0
    ensures lines == Closed(LayOut(Words(text), s))
  {
    hide Fits;
    lines := [];
    var current := "";
    var words := Words(text);
    for i := 0 to |words|
      invariant Layout(lines, current) == LayOut(words[..i], s)
    {
      assert words[..i + 1][..i] == words[..i];
      ghost var before := Layout(lines, current);
      var word := words[i];
      var candidate := if current != "" then current + " " + word else word;
      if Fits(candidate, s) {
        current := candidate;
        continue;
      }
      if current != "" {
        lines := lines + [current];
      }
      lines, word := BreakWord(word, s, lines);
      current := word;
    }
    assert words[..|words|] == words;
    if current != "" {
      lines := lines + [current];
    }
    if lines == [] {
      lines := [""];
    }
  }

  method BreakWord(word: string, s: Setting, before: seq<string>) returns (lines: seq<string>, rest: string)
    requires s.width >= 0.0
    ensures lines == before + Break(word, s).0 && rest == Break(word, s).1
  {
    EmptyFits(s);
    hide Fits;
    lines, rest := before, word;
    assert before + [] == before;
    while !Fits(rest, s)
      invariant before + Break(word, s).0 == lines + Break(rest, s).0 && Break(word, s).1 == Break(rest, s).1
      decreases |rest|
    {
      var cut := |rest|;
      while cut > 1 && !Fits(rest[..cut], s)
        invariant 1 <= cut <= |rest| && Cut(rest, |rest|, s) == Cut(rest, cut, s)
      {
        cut := cut - 1;
      }
      ghost var pieces := Break(rest[cut..], s).0;
      assert lines + ([rest[..cut]] + pieces) == (lines + [rest[..cut]]) + pieces;
      lines := lines + [rest[..cut]];
      rest := rest[cut..];
    }
    assert lines + [] == lines;
  }

  // ----- every line fits or is a single character ----------------------------------------

  predicate GoodLine(line: string, s: Setting) {
    Fits(line, s) || |line| == 1
  }

  lemma {:induction false} CutFits(word: string, cut: nat, s: Setting)
    requires 1 <= cut <= |word|
    ensures 1 <= Cut(word, cut, s) <= cut && GoodLine(word[..Cut(word, cut, s)], s)
  {
    hide Fits;
    if cut > 1 && !Fits(word[..cut], s) {
      CutFits(word, cut - 1, s);
    }
  }

  predicate GoodLines(lines: seq<string>, s: Setting) {
    forall i :: 0 <= i < |lines| ==> GoodLine(lines[i], s)
  }

  lemma Associative(a: string, b: string, c: string)
    ensures a + (b + c) == (a + b) + c
  {
  }

  lemma {:induction false} BreakFits(word: string, s: Setting)
    requires s.width >= 0.0
    ensures GoodLines(Break(word, s).0, s) && Fits(Break(word, s).1, s)
    decreases |word|
  {
    EmptyFits(s);
    hide Fits;
    if !Fits(word, s) && word != "" {
      CutFits(word, |word|, s);
      BreakFits(word[Cut(word, |word|, s)..], s);
    }
  }

  lemma {:induction false} BreakFlattens(word: string, s: Setting)
    requires s.width >= 0.0
    ensures Flatten(Break(word, s).0) + Break(word, s).1 == word
    decreases |word|
  {
    hide Fits, Cut;
    if !Fits(word, s) && word != "" {
      var cut := Cut(word, |word|, s);
      var (pieces, rest) := Break(word[cut..], s);
      BreakFlattens(word[cut..], s);
      FlattenFirst(word[..cut], pieces);
      Associative(word[..cut], Flatten(pieces), rest);
      assert word == word[..cut] + word[cut..];
    } else {
      assert Flatten([]) + word == word;
    }
  }

  lemma {:induction false} FlattenFirst(p: string, pieces: seq<string>)
    ensures Flatten([p] + pieces) == p + Flatten(pieces)
  {
    if pieces == [] {
      assert [p] + pieces == [] + [p];
      FlattenNext([], p);
      assert Flatten([]) == "" && "" + p == p && p + Flatten(pieces) == p;
    } else {
      var head, last := pieces[..|pieces| - 1], pieces[|pieces| - 1];
      FlattenFirst(p, head);
      assert ([p] + pieces)[..|pieces|] == [p] + head;
    }
  }

  lemma {:induction false} FlattenOfConcat(a: seq<string>, b: seq<string>)
    ensures Flatten(a + b) == Flatten(a) + Flatten(b)
  {
    if b == [] {
      assert a + b == a;
    } else {
      assert (a + b)[..|a + b| - 1] == a + b[..|b| - 1];
      FlattenOfConcat(a, b[..|b| - 1]);
    }
  }

  /** The text a layout holds, white space aside. */
  function TextOf(l: Layout): string {
    NonSpaces(Flatten(l.lines) + l.current)
  }

  /** For every text and non-negative width: each line fits or is a single character, and
      the lines hold every non-space character of the text, in order. */
  lemma WrapKeepsText(text: string, s: Setting)
    requires s.width >= 0.0
    ensures var lines := Closed(LayOut(Words(text), s));
      GoodLines(lines, s) && NonSpaces(Flatten(lines)) == NonSpaces(text)
  {
    var words := Words(text);
    EmptyFits(s);
    WordsOfText(text);
    hide Fits, NonSpaces, Words, LayOut;
    LayOutKeeps(words, s);
    ClosedKeeps(LayOut(words, s), s);
  }

  lemma ClosedKeeps(l: Layout, s: Setting)
    requires GoodLines(l.lines, s) && Fits(l.current, s)
    ensures GoodLines(Closed(l), s) && NonSpaces(Flatten(Closed(l))) == TextOf(l)
  {
    hide Fits, NonSpaces;
    if l.current != "" {
      FlattenNext(l.lines, l.current);
    } else {
      assert Flatten(l.lines) + "" == Flatten(l.lines);
      if l.lines == [] {
        FlattenNext([], "");
        assert [] + [""] == [""] && Flatten([]) + "" == "";
      }
    }
  }

  lemma {:induction false} FlattenIsNonSpace(words: seq<string>)
    requires AllWords(words)
    ensures forall i :: 0 <= i < |Flatten(words)| ==> !IsSpace(Flatten(words)[i])
  {
    if words != [] {
      FlattenIsNonSpace(words[..|words| - 1]);
      assert IsWord(words[|words| - 1]);
    }
  }

  lemma {:induction false} LayOutKeeps(words: seq<string>, s: Setting)
    requires s.width >= 0.0 && AllWords(words)
    ensures var l := LayOut(words, s);
      GoodLines(l.lines, s) && Fits(l.current, s) && TextOf(l) == Flatten(words)
  {
    EmptyFits(s);
    hide Fits, IsWord, AddWord;
    if words != [] {
      var n := |words| - 1;
      LayOutKeeps(words[..n], s);
      assert IsWord(words[n]);
      AddWordFits(LayOut(words[..n], s), words[n], s);
      AddWordKeeps(LayOut(words[..n], s), words[n], s);
    }
  }

  lemma AddWordFits(l: Layout, word: string, s: Setting)
    requires s.width >= 0.0 && GoodLines(l.lines, s) && Fits(l.current, s)
    ensures GoodLines(AddWord(l, word, s).lines, s) && Fits(AddWord(l, word, s).current, s)
  {
    hide Fits;
    BreakFits(word, s);
  }

  lemma AddWordKeeps(l: Layout, word: string, s: Setting)
    requires s.width >= 0.0 && IsWord(word)
    ensures TextOf(AddWord(l, word, s)) == TextOf(l) + word
  {
    WordsAreNonSpace(word);
    hide Fits;
    var text := Flatten(l.lines) + l.current;
    if Fits(Candidate(l.current, word), s) {
      ExtendedText(l, word);
    } else {
      BreakFlattens(word, s);
      ReplacedText(l, Break(word, s).0, Break(word, s).1);
    }
  }

  lemma ExtendedText(l: Layout, word: string)
    requires NonSpaces(word) == word
    ensures TextOf(Layout(l.lines, Candidate(l.current, word))) == TextOf(l) + word
  {
    hide IsSpace;
    var text := Flatten(l.lines) + l.current;
    if l.current != "" {
      Associative(Flatten(l.lines), l.current, " " + word);
      assert l.current + (" " + word) == l.current + " " + word;
      NonSpacesOfConcat(text, " " + word);
      NonSpacesOfConcat(" ", word);
      SpaceIsSpace();
    } else {
      assert text == Flatten(l.lines);
      NonSpacesOfConcat(text, word);
    }
  }

  lemma SpaceIsSpace()
    ensures NonSpaces(" ") == ""
  {
    assert " "[..0] == "";
  }

  lemma ReplacedText(l: Layout, pieces: seq<string>, rest: string)
    requires NonSpaces(Flatten(pieces) + rest) == Flatten(pieces) + rest
    ensures TextOf(Layout(l.lines + (if l.current != "" then [l.current] else []) + pieces, rest))
         == TextOf(l) + (Flatten(pieces) + rest)
  {
    hide NonSpaces;
    var text := Flatten(l.lines) + l.current;
    var lines := l.lines + (if l.current != "" then [l.current] else []);
    if l.current != "" {
      FlattenNext(l.lines, l.current);
    } else {
      assert text == Flatten(l.lines) && lines == l.lines;
    }
    FlattenOfConcat(lines, pieces);
    Associative(text, Flatten(pieces), rest);
    NonSpacesOfConcat(text, Flatten(pieces) + rest);
  }

  // ----- the fewest lines ------------------------------------------------------------------

  /** Words on one line, a space between them. */
  function Join(words: seq<string>): string {
    if words == [] then ""
    else if |words| == 1 then words[0]
    else Join(words[..|words| - 1]) + " " + words[|words| - 1]
  }

  function Concat(lines: seq<seq<string>>): seq<string> {
    if lines == [] then [] else Concat(lines[..|lines| - 1]) + lines[|lines| - 1]
  }

  predicate IsLine(line: seq<string>, s: Setting) {
    line != [] && Fits(Join(line), s)
  }

  /** The words cut, in order, into lines that fit. */
  predicate IsSplit(words: seq<string>, lines: seq<seq<string>>, s: Setting) {
    Concat(lines) == words && forall i :: 0 <= i < |lines| ==> IsLine(lines[i], s)
  }

  function Printed(lines: seq<seq<string>>): seq<string> {
    seq(|lines|, i requires 0 <= i < |lines| => Join(lines[i]))
  }

  /** The words laid out so far: the full lines and the one being filled. */
  datatype Fill = Fill(full: seq<seq<string>>, line: seq<string>)

  /** Greedy filling: a word joins the line whenever it still fits. */
  function Greedy(words: seq<string>, s: Setting): Fill {
    if words == [] then Fill([], []) else FillMore(Greedy(words[..|words| - 1], s), words[|words| - 1], s)
  }

  function FillMore(f: Fill, w: string, s: Setting): Fill {
    if f.line == [] then Fill(f.full, [w])
    else if Fits(Join(f.line + [w]), s) then Fill(f.full, f.line + [w])
    else Fill(f.full + [f.line], [w])
  }

  predicate AllFit(words: seq<string>, s: Setting) {
    forall i :: 0 <= i < |words| ==> Fits(words[i], s)
  }

  lemma ConcatNext(lines: seq<seq<string>>, line: seq<string>)
    ensures Concat(lines + [line]) == Concat(lines) + line
  {
    assert (lines + [line])[..|lines|] == lines;
  }

  lemma JoinNext(words: seq<string>, w: string)
    requires words != []
    ensures Join(words + [w]) == Join(words) + " " + w
  {
    assert (words + [w])[..|words|] == words;
  }

  lemma JoinOne(w: string)
    ensures Join([w]) == w
  {
  }

  lemma FittingWordIsNotBroken(w: string, s: Setting)
    requires s.width >= 0.0 && Fits(w, s)
    ensures Break(w, s) == ([], w)
  {
  }

  /** The layout is the fill: its full lines printed, its line being filled. */
  predicate Shows(l: Layout, f: Fill) {
    l.lines == Printed(f.full) && l.current == Join(f.line) && (f.line == [] <==> l.current == "")
  }

  lemma ShowsMore(l: Layout, f: Fill, w: string, s: Setting)
    requires s.width >= 0.0 && w != "" && Fits(w, s) && Shows(l, f)
    ensures Shows(AddWord(l, w, s), FillMore(f, w, s))
  {
    FittingWordIsNotBroken(w, s);
    JoinOne(w);
    hide Fits, Join, Break;
    if f.line != [] {
      JoinNext(f.line, w);
      assert l.current + " " + w == Join(f.line + [w]);
      assert Printed(f.full + [f.line]) == Printed(f.full) + [Join(f.line)];
    }
  }

  lemma {:induction false} LayOutIsGreedy(words: seq<string>, s: Setting)
    requires s.width >= 0.0 && AllFit(words, s) && AllWords(words)
    ensures Shows(LayOut(words, s), Greedy(words, s))
  {
    hide Fits, AddWord, FillMore;
    if words != [] {
      var n := |words| - 1;
      LayOutIsGreedy(words[..n], s);
      assert IsWord(words[n]) && Fits(words[n], s);
      ShowsMore(LayOut(words[..n], s), Greedy(words[..n], s), words[n], s);
    }
  }

  lemma SplitWithLine(words: seq<string>, lines: seq<seq<string>>, line: seq<string>, s: Setting)
    requires IsSplit(words, lines, s) && IsLine(line, s)
    ensures IsSplit(words + line, lines + [line], s)
  {
    hide IsLine;
    ConcatNext(lines, line);
  }

  lemma SplitWithoutLine(words: seq<string>, lines: seq<seq<string>>, line: seq<string>, s: Setting)
    requires IsSplit(words, lines + [line], s)
    ensures IsSplit(Concat(lines), lines, s) && IsLine(line, s) && words == Concat(lines) + line
  {
    hide IsLine;
    ConcatNext(lines, line);
    var all := lines + [line];
    assert all[|lines|] == line && IsLine(all[|lines|], s);
    assert forall i :: 0 <= i < |lines| ==> all[i] == lines[i];
  }

  lemma NoWordsSplit(s: Setting)
    ensures IsSplit([], [], s)
  {
  }

  lemma FillMoreSplits(f: Fill, words: seq<string>, w: string, s: Setting)
    requires Fits(w, s) && (if f.line == [] then f.full == [] && words == [] else IsSplit(words, f.full + [f.line], s))
    ensures var f' := FillMore(f, w, s); f'.line != [] && IsSplit(words + [w], f'.full + [f'.line], s)
  {
    JoinOne(w);
    hide Fits, Join, IsSplit, Concat;
    if f.line == [] {
      NoWordsSplit(s);
      SplitWithLine([], [], [w], s);
    } else if Fits(Join(f.line + [w]), s) {
      SplitWithoutLine(words, f.full, f.line, s);
      SplitWithLine(Concat(f.full), f.full, f.line + [w], s);
      assert words + [w] == Concat(f.full) + (f.line + [w]);
    } else {
      SplitWithLine(words, f.full + [f.line], [w], s);
    }
  }

  /** The greedy filling is a split. */
  lemma {:induction false} GreedySplits(words: seq<string>, s: Setting)
    requires words != [] && AllFit(words, s)
    ensures var f := Greedy(words, s); f.line != [] && IsSplit(words, f.full + [f.line], s)
  {
    hide Fits, FillMore, IsSplit;
    var n := |words| - 1;
    if n > 0 {
      GreedySplits(words[..n], s);
    }
    assert Fits(words[n], s) && words == words[..n] + [words[n]];
    FillMoreSplits(Greedy(words[..n], s), words[..n], words[n], s);
  }

  // ----- no split has fewer lines ----------------------------------------------------------

  lemma {:induction false} JoinUnits(words: seq<string>, k: nat)
    requires k < |words|
    ensures Units(Join(words[k..])) <= Units(Join(words))
    ensures k > 0 ==> Units(Join(words[..k])) <= Units(Join(words))
    decreases |words|
  {
    var n := |words| - 1;
    if n > 0 {
      var head, w := words[..n], words[n];
      assert words == head + [w];
      LongerLine(head, w);
      if k < n {
        JoinUnits(head, k);
        assert words[k..] == head[k..] + [w] && words[..k] == head[..k];
        LongerLine(head[k..], w);
      } else {
        assert words[n..] == [w];
      }
    } else {
      assert words[0..] == words;
    }
  }

  lemma LongerLine(head: seq<string>, w: string)
    requires head != []
    ensures Units(Join(head + [w])) == Units(Join(head)) + Units(" ") + Units(w)
    ensures Units(Join([w])) == Units(w) && Units(w) >= 0 && Units(" ") >= 0 && Units(Join(head)) >= 0
  {
    JoinNext(head, w);
    JoinOne(w);
    UnitsNatural(w);
    UnitsNatural(" ");
    UnitsNatural(Join(head));
    hide Join, Units;
    UnitsOfConcat(Join(head) + " ", w);
    UnitsOfConcat(Join(head), " ");
  }

  /** A part of a line that fits, fits. */
  lemma PartOfLine(line: seq<string>, a: nat, b: nat, s: Setting)
    requires s.size >= 0.0 && IsLine(line, s) && a < b <= |line|
    ensures IsLine(line[a..b], s)
  {
    hide Fits, Join;
    JoinUnits(line, a);
    FewerUnitsFit(Join(line[a..]), Join(line), s);
    if b < |line| {
      JoinUnits(line[a..], b - a);
      assert line[a..][..b - a] == line[a..b];
      FewerUnitsFit(Join(line[a..b]), Join(line[a..]), s);
    } else {
      assert line[a..] == line[a..b];
    }
  }

  /** The lines without the last word. */
  function DropLastWord(front: seq<seq<string>>, last: seq<string>): seq<seq<string>>
    requires last != []
  {
    if |last| == 1 then front else front + [last[..|last| - 1]]
  }

  lemma DroppingSplits(words: seq<string>, front: seq<seq<string>>, last: seq<string>, s: Setting)
    requires s.size >= 0.0 && last != [] && IsSplit(words, front + [last], s)
    ensures words != [] && last[|last| - 1] == words[|words| - 1]
    ensures IsSplit(words[..|words| - 1], DropLastWord(front, last), s)
  {
    hide Fits, Join;
    ConcatNext(front, last);
    var lines := front + [last];
    assert IsLine(lines[|front|], s);
    assert forall i :: 0 <= i < |front| ==> lines[i] == front[i];
    if |last| > 1 {
      PartOfLine(last, 0, |last| - 1, s);
      assert last[0..|last| - 1] == last[..|last| - 1];
      ConcatNext(front, last[..|last| - 1]);
      assert (Concat(front) + last)[..|words| - 1] == Concat(front) + last[..|last| - 1];
    } else {
      assert (Concat(front) + last)[..|words| - 1] == Concat(front);
    }
  }

  /** As good as the fill `f`: more lines, or as many with at least as much on the last. */
  predicate Behind(f: Fill, front: seq<seq<string>>, last: seq<string>) {
    |f.full| < |front| || (|f.full| == |front| && |f.line| <= |last|)
  }

  /** Greedy stays ahead: no split has fewer lines, and one with as many has at least as
      many words on its last line. */
  lemma {:induction false} GreedyStaysAhead(words: seq<string>, front: seq<seq<string>>, last: seq<string>, s: Setting)
    requires s.size >= 0.0 && last != [] && AllFit(words, s) && IsSplit(words, front + [last], s)
    ensures Behind(Greedy(words, s), front, last)
    decreases |words|
  {
    hide Fits, FillMore, IsSplit, AllFit, Greedy, Behind, Join, Concat, DropLastWord;
    DroppingSplits(words, front, last, s);
    HeadFits(words, s);
    var head, dropped := words[..|words| - 1], DropLastWord(front, last);
    if head != [] {
      SplitIsNonEmpty(head, dropped, s);
      var m := |dropped| - 1;
      assert dropped == dropped[..m] + [dropped[m]];
      GreedyStaysAhead(head, dropped[..m], dropped[m], s);
    }
    OneWordMore(words, front, last, s);
  }

  lemma OneWordMore(words: seq<string>, front: seq<seq<string>>, last: seq<string>, s: Setting)
    requires s.size >= 0.0 && words != [] && last != [] && AllFit(words, s) && IsSplit(words, front + [last], s)
    requires words[..|words| - 1] != [] ==>
      var d := DropLastWord(front, last); d != [] && Behind(Greedy(words[..|words| - 1], s), d[..|d| - 1], d[|d| - 1])
    ensures Behind(Greedy(words, s), front, last)
  {
    hide Fits, FillMore, IsSplit, AllFit, Greedy, Behind, Join, Concat, DropLastWord;
    DroppingSplits(words, front, last, s);
    HeadFits(words, s);
    GreedyNext(words, s);
    var head, w := words[..|words| - 1], words[|words| - 1];
    assert words == head + [w];
    if head == [] {
      FirstWordLine(w, front, last, s);
    } else {
      GreedySplits(head, s);
      StepStaysAhead(Greedy(head, s), head, w, front, last, s);
    }
  }

  lemma GreedyNext(words: seq<string>, s: Setting)
    requires words != []
    ensures Greedy(words, s) == FillMore(Greedy(words[..|words| - 1], s), words[|words| - 1], s)
  {
  }

  lemma HeadFits(words: seq<string>, s: Setting)
    requires words != [] && AllFit(words, s)
    ensures AllFit(words[..|words| - 1], s)
  {
  }

  lemma FirstWordLine(w: string, front: seq<seq<string>>, last: seq<string>, s: Setting)
    requires last != []
    ensures Behind(FillMore(Greedy([], s), w, s), front, last)
  {
  }

  lemma SplitIsNonEmpty(words: seq<string>, lines: seq<seq<string>>, s: Setting)
    requires words != [] && IsSplit(words, lines, s)
    ensures lines != [] && lines[|lines| - 1] != []
  {
    assert lines != [] ==> IsLine(lines[|lines| - 1], s);
  }

  lemma StepStaysAhead(f: Fill, head: seq<string>, w: string, front: seq<seq<string>>, last: seq<string>, s: Setting)
    requires s.size >= 0.0 && head != [] && f.line != [] && last != [] && last[|last| - 1] == w
    requires IsSplit(head, f.full + [f.line], s) && IsSplit(head, DropLastWord(front, last), s)
    requires IsSplit(head + [w], front + [last], s)
    requires var d := DropLastWord(front, last); d != [] && Behind(f, d[..|d| - 1], d[|d| - 1])
    ensures Behind(FillMore(f, w, s), front, last)
  {
    hide Fits, Join, Concat, IsSplit, FillMore, Behind;
    if |last| == 1 {
      assert last == [w];
      NewLineStaysBehind(f, w, front, s);
    } else {
      var d := DropLastWord(front, last);
      assert d[..|d| - 1] == front && d[|d| - 1] == last[..|last| - 1];
      SplitWithoutLine(head, f.full, f.line, s);
      SplitWithoutLine(head + [w], front, last, s);
      if |f.line| < |last| {
        EndOfLineFits(Concat(f.full), f.line, Concat(front), last, w, s);
      }
      LongerLineStaysBehind(f, w, front, last, s);
    }
  }

  lemma NewLineStaysBehind(f: Fill, w: string, front: seq<seq<string>>, s: Setting)
    requires f.line != [] && front != [] && Behind(f, front[..|front| - 1], front[|front| - 1])
    ensures Behind(FillMore(f, w, s), front, [w])
  {
    hide Fits, Join;
  }

  lemma LongerLineStaysBehind(f: Fill, w: string, front: seq<seq<string>>, last: seq<string>, s: Setting)
    requires f.line != [] && |last| > 1 && Behind(f, front, last[..|last| - 1])
    requires |f.line| < |last| ==> Fits(Join(f.line + [w]), s)
    ensures Behind(FillMore(f, w, s), front, last)
  {
    hide Fits, Join;
  }

  /** If a line that fits ends in `line` and `w`, the word still fits the line being filled. */
  lemma EndOfLineFits(a: seq<string>, line: seq<string>, b: seq<string>, last: seq<string>, w: string, s: Setting)
    requires s.size >= 0.0 && IsLine(last, s) && |line| < |last| && (a + line) + [w] == b + last
    ensures Fits(Join(line + [w]), s)
  {
    assert a + (line + [w]) == b + last;
    SameEnd(a, line + [w], b, last);
    PartOfLine(last, |last| - |line| - 1, |last|, s);
  }

  lemma SameEnd(a: seq<string>, x: seq<string>, b: seq<string>, y: seq<string>)
    requires a + x == b + y && |x| <= |y|
    ensures x == y[|y| - |x|..|y|]
  {
    assert forall i :: 0 <= i < |x| ==> x[i] == (a + x)[|a| + i];
    assert forall i :: 0 <= i < |y| ==> y[i] == (b + y)[|b| + i];
  }

  lemma PrintedNext(f: Fill)
    ensures Printed(f.full + [f.line]) == Printed(f.full) + [Join(f.line)]
  {
    hide Join;
  }

  /** For a text whose words each fit, the wrap prints a split of its words into fitting
      lines, and no such split has fewer lines. */
  lemma WrapUsesFewestLines(text: string, s: Setting, lines: seq<seq<string>>)
    requires s.width >= 0.0 && s.size >= 0.0 && Words(text) != [] && AllFit(Words(text), s)
    requires IsSplit(Words(text), lines, s)
    ensures var f, wrapped := Greedy(Words(text), s), Closed(LayOut(Words(text), s));
      && IsSplit(Words(text), f.full + [f.line], s) && wrapped == Printed(f.full + [f.line])
      && |wrapped| <= |lines|
  {
    var words := Words(text);
    WordsOfText(text);
    hide Words, Fits, Greedy, LayOut, Join, IsSplit, AllFit, NonSpaces, Flatten, IsWord;
    LayOutIsGreedy(words, s);
    GreedySplits(words, s);
    PrintedNext(Greedy(words, s));
    SplitIsNonEmpty(words, lines, s);
    var n := |lines| - 1;
    assert lines == lines[..n] + [lines[n]];
    GreedyStaysAhead(words, lines[..n], lines[n], s);
  }
}
