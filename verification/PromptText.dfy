/** Text clean-up for prompts. The reference for every function here is the sequence of words of a
    text: clean-up changes the white space between words and, for comparison, letter case and some
    punctuation, and nothing else. */
module PromptText {

  predicate IsSpace(c: char) {
    c == ' ' || 9 <= c as int <= 13 || c as int == 0x85 || c as int == 0xA0 || c as int == 0x1680
    || 0x2000 <= c as int <= 0x200A || c as int == 0x2028 || c as int == 0x2029 || c as int == 0x202F
    || c as int == 0x205F || c as int == 0x3000
  }

  predicate IsNewline(c: char) {
    c == '\n'
  }

  // ----- Splitting and joining -----

  /** The pieces between separators; there is always one more piece than separators. */
  function Split(s: string, sep: char -> bool): (r: seq<string>)
    ensures r != []
  {
    if s == [] then [[]]
    else
      var before, c := Split(s[..|s| - 1], sep), s[|s| - 1];
      var n := |before| - 1;
      if sep(c) then before + [[]] else before[..n] + [before[n] + [c]]
  }

  function NonEmpty(ps: seq<string>): seq<string> {
    if ps == [] then []
    else NonEmpty(ps[..|ps| - 1]) + if ps[|ps| - 1] == [] then [] else [ps[|ps| - 1]]
  }

  function Join(ps: seq<string>, sep: char): string {
    if ps == [] then []
    else if |ps| == 1 then ps[0]
    else Join(ps[..|ps| - 1], sep) + [sep] + ps[|ps| - 1]
  }

  /** The words of a text. */
  function Words(s: string): seq<string> {
    NonEmpty(Split(s, IsSpace))
  }

  lemma {:induction false} NonEmptyAppend(a: seq<string>, b: seq<string>)
    ensures NonEmpty(a + b) == NonEmpty(a) + NonEmpty(b)
  {
    if b == [] {
      assert a + b == a;
    } else {
      assert (a + b)[..|a + b| - 1] == a + b[..|b| - 1];
      NonEmptyAppend(a, b[..|b| - 1]);
    }
  }

  lemma SplitLast(s: string, c: char, sep: char -> bool)
    ensures Split([], sep) == [[]]
    ensures var before := Split(s, sep);
            var n := |before| - 1;
            Split(s + [c], sep) == if sep(c) then before + [[]] else before[..n] + [before[n] + [c]]
  {
    assert (s + [c])[..|s|] == s;
  }

  lemma {:induction false} SplitAt(a: string, x: char, b: string, sep: char -> bool)
    requires sep(x)
    ensures Split(a + [x] + b, sep) == Split(a, sep) + Split(b, sep)
  {
    hide Split;
    var s := a + [x] + b;
    if b == [] {
      SplitLast(a, x, sep);
      assert s == a + [x];
    } else {
      var n := |b| - 1;
      SplitAt(a, x, b[..n], sep);
      var p, q := Split(a, sep), Split(b[..n], sep);
      SplitLast(a + [x] + b[..n], b[n], sep);
      SplitLast(b[..n], b[n], sep);
      assert b == b[..n] + [b[n]] && s == a + [x] + b[..n] + [b[n]];
      assert (p + q)[..|p + q| - 1] == p + q[..|q| - 1];
    }
  }

  lemma {:induction false} SplitNone(s: string, sep: char -> bool)
    requires forall k :: 0 <= k < |s| ==> !sep(s[k])
    ensures Split(s, sep) == [s]
  {
    if s != [] {
      var n := |s| - 1;
      SplitNone(s[..n], sep);
      assert s == s[..n] + [s[n]];
      assert [s[..n]][..0] + [s] == [s];
    }
  }

  lemma {:induction false} PiecesHaveNoSeparator(s: string, sep: char -> bool)
    ensures forall k, c :: 0 <= k < |Split(s, sep)| && c in Split(s, sep)[k] ==> !sep(c)
  {
    if s != [] {
      PiecesHaveNoSeparator(s[..|s| - 1], sep);
    }
  }

  /** Words on both sides of a space are the words of the two sides. */
  lemma WordsAround(a: string, x: char, b: string)
    requires IsSpace(x)
    ensures Words(a + [x] + b) == Words(a) + Words(b)
  {
    SplitAt(a, x, b, IsSpace);
    NonEmptyAppend(Split(a, IsSpace), Split(b, IsSpace));
  }

  /** A word: not empty, no space in it. */
  predicate IsWord(w: string) {
    w != [] && forall k :: 0 <= k < |w| ==> !IsSpace(w[k])
  }

  lemma WordsOfNothing()
    ensures Words([]) == []
  {
    var one: seq<string> := [[]];
    assert one[..0] == [] && Split([], IsSpace) == one;
  }

  lemma WordsOfWord(w: string)
    requires IsWord(w)
    ensures Words(w) == [w]
  {
    SplitNone(w, IsSpace);
    assert NonEmpty([w]) == NonEmpty([]) + [w];
  }

  lemma {:induction false} NonEmptyMembers(ps: seq<string>)
    ensures forall w :: w in NonEmpty(ps) <==> w in ps && w != []
  {
    if ps != [] {
      NonEmptyMembers(ps[..|ps| - 1]);
      assert ps == ps[..|ps| - 1] + [ps[|ps| - 1]];
    }
  }

  lemma WordsAreWords(s: string)
    ensures forall k :: 0 <= k < |Words(s)| ==> IsWord(Words(s)[k])
  {
    PiecesHaveNoSeparator(s, IsSpace);
    NonEmptyMembers(Split(s, IsSpace));
    var ps := Split(s, IsSpace);
    forall k | 0 <= k < |Words(s)|
      ensures IsWord(Words(s)[k])
    {
      var w := Words(s)[k];
      assert w in ps;
    }
  }

  /** Joining words and taking them apart again changes nothing. */
  lemma {:induction false} WordsOfJoin(ws: seq<string>, sep: char)
    requires IsSpace(sep) && forall k :: 0 <= k < |ws| ==> IsWord(ws[k])
    ensures Words(Join(ws, sep)) == ws
  {
    hide Words, IsWord;
    if |ws| == 0 {
      WordsOfNothing();
    } else if |ws| == 1 {
      WordsOfWord(ws[0]);
      assert ws == [ws[0]];
    } else {
      var n := |ws| - 1;
      WordsOfJoin(ws[..n], sep);
      WordsAround(Join(ws[..n], sep), sep, ws[n]);
      WordsOfWord(ws[n]);
      assert ws == ws[..n] + [ws[n]];
    }
  }

  lemma {:induction false} JoinAppend(a: seq<string>, b: seq<string>, sep: char)
    ensures Join(a + b, sep) ==
            if a == [] then Join(b, sep) else if b == [] then Join(a, sep) else Join(a, sep) + [sep] + Join(b, sep)
  {
    if a == [] {
      assert a + b == b;
    } else if b == [] {
      assert a + b == a;
    } else {
      var n := |b| - 1;
      assert (a + b)[..|a + b| - 1] == a + b[..n];
      JoinAppend(a, b[..n], sep);
      if n == 0 {
        assert Join(b, sep) == b[0] && b[..0] == [];
      } else {
        assert Join(a, sep) + [sep] + Join(b[..n], sep) + [sep] + b[n] ==
               Join(a, sep) + [sep] + (Join(b[..n], sep) + [sep] + b[n]);
      }
    }
  }

  // ----- Functions that respect separators -----

  function Flat(f: string -> seq<string>, ps: seq<string>): seq<string> {
    if ps == [] then [] else Flat(f, ps[..|ps| - 1]) + f(ps[|ps| - 1])
  }

  ghost predicate Additive(f: string -> seq<string>, sep: char -> bool) {
    f([]) == [] && forall a, x, b :: sep(x) ==> f(a + [x] + b) == f(a) + f(b)
  }

  lemma FlatOne(f: string -> seq<string>, p: string)
    ensures Flat(f, [p]) == f(p)
  {
    assert [p][..0] == [] && [] + f(p) == f(p);
  }

  lemma {:induction false} FlatAppend(f: string -> seq<string>, a: seq<string>, b: seq<string>)
    ensures Flat(f, a + b) == Flat(f, a) + Flat(f, b)
  {
    if b == [] {
      assert a + b == a;
    } else {
      assert (a + b)[..|a + b| - 1] == a + b[..|b| - 1];
      FlatAppend(f, a, b[..|b| - 1]);
    }
  }

  lemma {:induction false} FlatNonEmpty(f: string -> seq<string>, ps: seq<string>)
    requires f([]) == []
    ensures Flat(f, NonEmpty(ps)) == Flat(f, ps)
  {
    hide Flat, NonEmpty;
    if ps == [] {
      FlatLast(f, ps);
    } else {
      var n := |ps| - 1;
      FlatNonEmpty(f, ps[..n]);
      FlatLast(f, ps);
      FlatAppend(f, NonEmpty(ps[..n]), [ps[n]]);
      FlatOne(f, ps[n]);
      if ps[n] == [] {
        assert NonEmpty(ps) == NonEmpty(ps[..n]);
        assert Flat(f, ps[..n]) + [] == Flat(f, ps[..n]);
      }
    }
  }

  lemma FlatLast(f: string -> seq<string>, ps: seq<string>)
    ensures ps == [] ==> Flat(f, ps) == [] && NonEmpty(ps) == []
    ensures var n := |ps| - 1;
            ps != [] ==> Flat(f, ps) == Flat(f, ps[..n]) + f(ps[n])
                         && NonEmpty(ps) == NonEmpty(ps[..n]) + if ps[n] == [] then [] else [ps[n]]
  {
  }

  /** A function that respects separators can be computed piece by piece. */
  lemma {:induction false} FlatSplit(f: string -> seq<string>, sep: char -> bool, s: string)
    requires Additive(f, sep)
    ensures f(s) == Flat(f, Split(s, sep))
  {
    hide Split, Flat;
    var k := LastSeparator(s, sep);
    if k == -1 {
      SplitNone(s, sep);
      FlatOne(f, s);
    } else {
      var a, b := s[..k], s[k + 1..];
      assert s == a + [s[k]] + b;
      SplitAt(a, s[k], b, sep);
      SplitNone(b, sep);
      FlatSplit(f, sep, a);
      FlatAppend(f, Split(a, sep), [b]);
      FlatOne(f, b);
    }
  }

  function LastSeparator(s: string, sep: char -> bool): (k: int)
    ensures -1 <= k < |s|
    ensures k >= 0 ==> sep(s[k])
    ensures forall j :: k < j < |s| ==> !sep(s[j])
  {
    if s == [] then -1
    else if sep(s[|s| - 1]) then |s| - 1
    else LastSeparator(s[..|s| - 1], sep)
  }

  // ----- The clean-up functions -----

  /** White space collapsed to single spaces, none at either end. */
  function Simplified(s: string): string {
    Join(Words(s), ' ')
  }

  function Replaced(s: string, from: char, to: char): (r: string)
    ensures |r| == |s| && forall k :: 0 <= k < |s| ==> r[k] == if s[k] == from then to else s[k]
  {
    seq(|s|, k requires 0 <= k < |s| => if s[k] == from then to else s[k])
  }

  function SimplifiedEach(lines: seq<string>): seq<string> {
    if lines == [] then []
    else
      var line := Simplified(lines[|lines| - 1]);
      SimplifiedEach(lines[..|lines| - 1]) + if line == [] then [] else [line]
  }

  function DetailText(text: string): string {
    Join(SimplifiedEach(Split(Replaced(text, '\r', '\n'), IsNewline)), '\n')
  }

  function Lower(c: char): char {
    if 'A' <= c <= 'Z' then (c as int + 32) as char else c
  }

  function LowerCase(s: string): (r: string)
    ensures |r| == |s| && forall k :: 0 <= k < |s| ==> r[k] == Lower(s[k])
  {
    seq(|s|, k requires 0 <= k < |s| => Lower(s[k]))
  }

  function CompareText(text: string): string {
    Simplified(Replaced(Replaced(Replaced(Replaced(LowerCase(DetailText(text)), '`', ' '),
      '"', ' '), ',', ' '), '.', ' '))
  }

  predicate StartsWith(s: string, prefix: string) {
    |prefix| <= |s| && s[..|prefix|] == prefix
  }

  predicate TextEquivalent(left: string, right: string) {
    var a, b := CompareText(left), CompareText(right);
    a != [] && b != [] && (a == b || StartsWith(a, b) || StartsWith(b, a))
  }

  function Trimmed(s: string): string {
    TrimmedRight(TrimmedLeft(s))
  }

  function TrimmedLeft(s: string): string {
    if s != [] && IsSpace(s[0]) then TrimmedLeft(s[1..]) else s
  }

  function TrimmedRight(s: string): string {
    if s != [] && IsSpace(s[|s| - 1]) then TrimmedRight(s[..|s| - 1]) else s
  }

  method NormalizeDetailText(text: string) returns (r: string)
    ensures r == DetailText(text)
  {
    var lines := Split(Replaced(text, '\r', '\n'), IsNewline);
    var cleaned := [];
    for i := 0 to |lines|
      invariant cleaned == SimplifiedEach(lines[..i])
    {
      assert lines[..i + 1][..i] == lines[..i];
      var simplified := Simplified(lines[i]);
      if simplified != [] {
        cleaned := cleaned + [simplified];
      }
    }
    assert lines[..|lines|] == lines;
    r := Join(cleaned, '\n');
  }

  method NormalizeCompareText(text: string) returns (r: string)
    ensures r == CompareText(text)
  {
    var detail := NormalizeDetailText(text);
    var normalized := LowerCase(detail);
    normalized := Replaced(normalized, '`', ' ');
    normalized := Replaced(normalized, '"', ' ');
    normalized := Replaced(normalized, ',', ' ');
    normalized := Replaced(normalized, '.', ' ');
    r := Simplified(normalized);
  }

  // ----- What they mean -----

  /** What comparison makes of one character. */
  function Fold(c: char): char {
    var l := Lower(c);
    if l == '`' || l == '"' || l == ',' || l == '.' then ' ' else l
  }

  function Folded(s: string): (r: string)
    ensures |r| == |s| && forall k :: 0 <= k < |s| ==> r[k] == Fold(s[k])
  {
    seq(|s|, k requires 0 <= k < |s| => Fold(s[k]))
  }

  /** The words of a text as they are compared. */
  function FoldedWords(s: string): seq<string> {
    Words(Folded(s))
  }

  lemma FoldKeepsSpaces(c: char)
    ensures IsSpace(c) ==> IsSpace(Fold(c))
    ensures Fold(Fold(c)) == Fold(c)
  {
  }

  lemma WordsAreAdditive()
    ensures Additive(Words, IsSpace) && Additive(Words, IsNewline)
    ensures Additive(FoldedWords, IsSpace)
  {
    hide Words;
    WordsOfNothing();
    assert Folded([]) == [];
    forall a, x, b | IsSpace(x)
      ensures Words(a + [x] + b) == Words(a) + Words(b)
      ensures FoldedWords(a + [x] + b) == FoldedWords(a) + FoldedWords(b)
    {
      WordsAround(a, x, b);
      FoldKeepsSpaces(x);
      WordsAround(Folded(a), Fold(x), Folded(b));
      assert Folded(a + [x] + b) == Folded(a) + [Fold(x)] + Folded(b);
    }
  }

  /** The compared words of a text depend on its words only. */
  lemma FoldedWordsOfWords(s: string, t: string)
    requires Words(s) == Words(t)
    ensures FoldedWords(s) == FoldedWords(t)
  {
    WordsAreAdditive();
    FlatSplit(FoldedWords, IsSpace, s);
    FlatSplit(FoldedWords, IsSpace, t);
    FlatNonEmpty(FoldedWords, Split(s, IsSpace));
    FlatNonEmpty(FoldedWords, Split(t, IsSpace));
  }

  lemma WordsOfSimplified(s: string)
    ensures Words(Simplified(s)) == Words(s)
  {
    WordsAreWords(s);
    WordsOfJoin(Words(s), ' ');
  }

  lemma {:induction false} NewlinesAreSpaces(t: string)
    ensures Split(Replaced(t, '\r', '\n'), IsSpace) == Split(t, IsSpace)
  {
    if t != [] {
      var n := |t| - 1;
      NewlinesAreSpaces(t[..n]);
      assert Replaced(t, '\r', '\n')[..n] == Replaced(t[..n], '\r', '\n');
    } else {
      assert Replaced(t, '\r', '\n') == t;
    }
  }

  lemma {:induction false} WordsOfLines(lines: seq<string>)
    ensures Words(Join(SimplifiedEach(lines), '\n')) == Flat(Words, lines)
  {
    hide Words, Flat, Simplified;
    WordsOfNothing();
    if lines == [] {
      FlatLast(Words, lines);
    } else {
      var n := |lines| - 1;
      var before, line := SimplifiedEach(lines[..n]), Simplified(lines[n]);
      WordsOfLines(lines[..n]);
      FlatLast(Words, lines);
      WordsOfSimplified(lines[n]);
      if line == [] {
        assert SimplifiedEach(lines) == before;
        assert Flat(Words, lines[..n]) + [] == Flat(Words, lines[..n]);
      } else {
        JoinAppend(before, [line], '\n');
        assert Join([line], '\n') == line;
        WordsAround(Join(before, '\n'), '\n', line);
      }
    }
  }

  /** Cleaning up a text for display keeps its words. */
  lemma DetailTextKeepsWords(t: string)
    ensures Words(DetailText(t)) == Words(t)
  {
    var u := Replaced(t, '\r', '\n');
    NewlinesAreSpaces(t);
    WordsAreAdditive();
    FlatSplit(Words, IsNewline, u);
    WordsOfLines(Split(u, IsNewline));
  }

  /** The text that is compared is the compared words with one space between them. */
  lemma CompareTextIsWords(t: string)
    ensures CompareText(t) == Join(FoldedWords(t), ' ')
  {
    hide Words, Join;
    var d := DetailText(t);
    assert Replaced(Replaced(Replaced(Replaced(LowerCase(d), '`', ' '), '"', ' '), ',', ' '), '.', ' ') == Folded(d);
    DetailTextKeepsWords(t);
    FoldedWordsOfWords(d, t);
  }

  /** The compared text of two texts on separate lines is the two compared texts with a space between,
      unless one of them has nothing to compare. */
  lemma CompareTextOfLines(x: string, y: string)
    ensures CompareText(x + ['\n'] + y) ==
            if CompareText(x) == [] then CompareText(y)
            else if CompareText(y) == [] then CompareText(x)
            else CompareText(x) + [' '] + CompareText(y)
  {
    hide Words, CompareText;
    CompareTextIsWords(x);
    CompareTextIsWords(y);
    CompareTextIsWords(x + ['\n'] + y);
    WordsAreAdditive();
    JoinAppend(FoldedWords(x), FoldedWords(y), ' ');
    NothingToJoin(x);
    NothingToJoin(y);
  }

  lemma NothingToJoin(x: string)
    ensures Join(FoldedWords(x), ' ') == [] <==> FoldedWords(x) == []
  {
    WordsAreWords(Folded(x));
  }

  /** One of the two texts begins the other, compared by folded words; a text without words begins
      nothing and is begun by nothing. */
  predicate Overlap(a: string, b: string) {
    var x, y := Join(FoldedWords(a), ' '), Join(FoldedWords(b), ' ');
    FoldedWords(a) != [] && FoldedWords(b) != [] && (x <= y || y <= x)
  }

  /** What the comparison means. */
  lemma TextEquivalentIsOverlap(a: string, b: string)
    ensures TextEquivalent(a, b) <==>
            var x, y := Join(FoldedWords(a), ' '), Join(FoldedWords(b), ' ');
            FoldedWords(a) != [] && FoldedWords(b) != [] && (x <= y || y <= x)
    ensures TextEquivalent(a, b) <==> Overlap(a, b)
  {
    hide CompareText, Words, Join;
    CompareTextIsWords(a);
    CompareTextIsWords(b);
    NothingToJoin(a);
    NothingToJoin(b);
  }

  /** Which characters comparison does not tell apart: a letter and its capital, and the space and four
      punctuation marks. */
  lemma FoldExact(c: char, d: char)
    ensures var marks := {' ', '`', '"', ',', '.'};
            Fold(c) == Fold(d) <==>
            || c == d
            || (c in marks && d in marks)
            || ('A' <= c <= 'Z' && d as int == c as int + 32)
            || ('A' <= d <= 'Z' && c as int == d as int + 32)
  {
  }

  lemma TextEquivalentIsSymmetric(a: string, b: string)
    ensures TextEquivalent(a, b) == TextEquivalent(b, a)
  {
    hide CompareText;
  }

  // ----- Cleaning up twice is cleaning up once -----

  lemma {:induction false} CharsOfJoin(ps: seq<string>, sep: char)
    ensures forall c :: c in Join(ps, sep) ==> c == sep || exists k :: 0 <= k < |ps| && c in ps[k]
  {
    if |ps| > 1 {
      var n := |ps| - 1;
      CharsOfJoin(ps[..n], sep);
      forall c | c in Join(ps[..n], sep) && c != sep
        ensures exists k :: 0 <= k < |ps| && c in ps[k]
      {
        var k :| 0 <= k < n && c in ps[..n][k];
        assert c in ps[k];
      }
    }
  }

  lemma {:induction false} CharsOfPieces(s: string, sep: char -> bool)
    ensures forall k, c :: 0 <= k < |Split(s, sep)| && c in Split(s, sep)[k] ==> c in s
  {
    if s != [] {
      var n := |s| - 1;
      CharsOfPieces(s[..n], sep);
      assert forall c :: c in s[..n] ==> c in s;
      assert s[n] in s;
      var before := Split(s[..n], sep);
      var last := |before| - 1;
      forall k, c | 0 <= k < |Split(s, sep)| && c in Split(s, sep)[k]
        ensures c in s
      {
        assert k < last || k > last || sep(s[n]) || Split(s, sep)[k] == before[last] + [s[n]];
      }
    }
  }

  /** The compared text of a compared text is itself. */
  lemma CompareTextIsIdempotent(t: string)
    ensures CompareText(CompareText(t)) == CompareText(t)
  {
    hide CompareText, Words;
    var ws := FoldedWords(t);
    var x := Join(ws, ' ');
    CompareTextIsWords(t);
    CompareTextIsWords(x);
    forall k | 0 <= k < |x|
      ensures Fold(x[k]) == x[k]
    {
      FoldedChars(t, x[k]);
    }
    assert Folded(x) == x;
    WordsAreWords(Folded(t));
    WordsOfJoin(ws, ' ');
  }

  lemma FoldedChars(t: string, c: char)
    requires c in Join(FoldedWords(t), ' ')
    ensures Fold(c) == c
  {
    CharsOfJoin(FoldedWords(t), ' ');
    if c != ' ' {
      var ps := Split(Folded(t), IsSpace);
      var k :| 0 <= k < |FoldedWords(t)| && c in FoldedWords(t)[k];
      var w := FoldedWords(t)[k];
      NonEmptyMembers(ps);
      assert w in ps;
      CharsOfPieces(Folded(t), IsSpace);
      var i :| 0 <= i < |ps| && ps[i] == w;
      assert c in Split(Folded(t), IsSpace)[i];
      assert c in Folded(t);
      var j :| 0 <= j < |Folded(t)| && Folded(t)[j] == c;
      FoldKeepsSpaces(t[j]);
    }
  }

  /** A cleaned line: not empty, nothing left to simplify, no line break in it. */
  predicate IsClean(line: string) {
    line != [] && Simplified(line) == line && '\n' !in line && '\r' !in line
  }

  lemma SimplifiedIsClean(s: string)
    ensures Simplified(s) != [] ==> IsClean(Simplified(s))
  {
    hide Words;
    WordsOfSimplified(s);
    WordsAreWords(s);
    CharsOfJoin(Words(s), ' ');
    forall c | c in Simplified(s)
      ensures c != '\n' && c != '\r'
    {
      if c != ' ' {
        var k :| 0 <= k < |Words(s)| && c in Words(s)[k];
        assert IsWord(Words(s)[k]);
      }
    }
  }

  lemma {:induction false} SimplifiedEachIsClean(lines: seq<string>)
    ensures forall k :: 0 <= k < |SimplifiedEach(lines)| ==> IsClean(SimplifiedEach(lines)[k])
  {
    hide IsClean, Simplified;
    if lines != [] {
      SimplifiedEachIsClean(lines[..|lines| - 1]);
      SimplifiedIsClean(lines[|lines| - 1]);
    }
  }

  lemma {:induction false} CleanLinesStay(lines: seq<string>)
    requires forall k :: 0 <= k < |lines| ==> IsClean(lines[k])
    ensures SimplifiedEach(lines) == lines
    ensures lines != [] ==> Split(Join(lines, '\n'), IsNewline) == lines
  {
    hide Simplified;
    if lines != [] {
      var n := |lines| - 1;
      CleanLinesStay(lines[..n]);
      assert lines == lines[..n] + [lines[n]];
      SplitNone(lines[n], IsNewline);
      if n > 0 {
        SplitAt(Join(lines[..n], '\n'), '\n', lines[n], IsNewline);
      }
    }
  }

  predicate IsLineBreak(c: char) {
    c == '\n' || c == '\r'
  }

  lemma {:induction false} ReturnsAreLineBreaks(t: string)
    ensures Split(Replaced(t, '\r', '\n'), IsNewline) == Split(t, IsLineBreak)
  {
    if t != [] {
      var n := |t| - 1;
      ReturnsAreLineBreaks(t[..n]);
      assert Replaced(t, '\r', '\n')[..n] == Replaced(t[..n], '\r', '\n');
    } else {
      assert Replaced(t, '\r', '\n') == t;
    }
  }

  /** The lines of a cleaned text are the lines of the text that have words, with one space between the
      words; a carriage return ends a line as well. */
  lemma DetailTextLines(t: string)
    ensures var lines := SimplifiedEach(Split(t, IsLineBreak));
            Split(DetailText(t), IsNewline) == if lines == [] then [[]] else lines
  {
    hide Simplified, Split;
    ReturnsAreLineBreaks(t);
    SimplifiedEachIsClean(Split(t, IsLineBreak));
    CleanLinesStay(SimplifiedEach(Split(t, IsLineBreak)));
    SplitNone([], IsNewline);
  }

  /** A text that was cleaned up for display stays as it is. */
  lemma DetailTextIsIdempotent(t: string)
    ensures DetailText(DetailText(t)) == DetailText(t)
  {
    hide Simplified, Split;
    var lines := SimplifiedEach(Split(Replaced(t, '\r', '\n'), IsNewline));
    var d := DetailText(t);
    SimplifiedEachIsClean(Split(Replaced(t, '\r', '\n'), IsNewline));
    CleanLinesStay(lines);
    CharsOfJoin(lines, '\n');
    forall k | 0 <= k < |d|
      ensures d[k] != '\r'
    {
      assert d[k] in d;
    }
    assert Replaced(d, '\r', '\n') == d;
    if lines == [] {
      BlankText();
    }
  }

  lemma BlankText()
    ensures SimplifiedEach(Split([], IsNewline)) == []
  {
    WordsOfNothing();
    var one: seq<string> := [[]];
    assert one[..0] == [] && Split([], IsNewline) == one;
  }

  // ----- Distinct texts -----

  predicate Repeats(kept: seq<string>, value: string) {
    exists k :: 0 <= k < |kept| && TextEquivalent(kept[k], value)
  }

  /** The values that are neither blank nor equivalent to one kept before them. */
  function Kept(values: seq<string>): seq<string> {
    if values == [] then []
    else
      var before, v := Kept(values[..|values| - 1]), Trimmed(values[|values| - 1]);
      if v == [] || Repeats(before, v) then before else before + [v]
  }

  method UniqueJoined(values: seq<string>) returns (r: string)
    ensures r == Join(Kept(values), '\n')
  {
    hide TextEquivalent;
    var filtered: seq<string> := [];
    for i := 0 to |values|
      invariant filtered == Kept(values[..i])
    {
      assert values[..i + 1][..i] == values[..i];
      var simplified := Trimmed(values[i]);
      if simplified == [] {
        continue;
      }
      var duplicate := false;
      for k := 0 to |filtered|
        invariant !duplicate && forall j :: 0 <= j < k ==> !TextEquivalent(filtered[j], simplified)
      {
        if TextEquivalent(filtered[k], simplified) {
          duplicate := true;
          break;
        }
      }
      if !duplicate {
        filtered := filtered + [simplified];
      }
    }
    assert values[..|values|] == values;
    r := Join(filtered, '\n');
  }

  predicate Repeated(kept: seq<string>, value: string) {
    exists k :: 0 <= k < |kept| && Overlap(kept[k], value)
  }

  /** No two kept texts overlap, and every value that is not blank is kept or overlaps a kept one. */
  lemma {:induction false} KeptAreDistinct(values: seq<string>)
    ensures forall i, j :: 0 <= i < j < |Kept(values)| ==> !Overlap(Kept(values)[i], Kept(values)[j])
    ensures forall k :: 0 <= k < |values| && Trimmed(values[k]) != [] ==>
              Trimmed(values[k]) in Kept(values) || Repeated(Kept(values), Trimmed(values[k]))
  {
    hide TextEquivalent, Trimmed, Overlap;
    forall a, b
      ensures TextEquivalent(a, b) == Overlap(a, b)
    {
      TextEquivalentIsOverlap(a, b);
    }
    if values != [] {
      var n := |values| - 1;
      KeptAreDistinct(values[..n]);
      var before, kept := Kept(values[..n]), Kept(values);
      assert forall k :: 0 <= k < |before| ==> kept[k] == before[k];
      forall k | 0 <= k < |values| && Trimmed(values[k]) != []
        ensures Trimmed(values[k]) in kept || Repeated(kept, Trimmed(values[k]))
      {
        var v := Trimmed(values[k]);
        if k < n {
          assert values[..n][k] == values[k];
          if v !in before {
            var j :| 0 <= j < |before| && Overlap(before[j], v);
            assert Overlap(kept[j], v);
          }
        } else if !(v in kept) {
          var j :| 0 <= j < |before| && TextEquivalent(before[j], v);
          assert Overlap(kept[j], v);
        }
      }
    }
  }

  // ----- Trimming -----

  lemma {:induction false} TrimmedLeftKeepsWords(s: string)
    ensures Words(TrimmedLeft(s)) == Words(s)
    ensures forall c :: c in TrimmedLeft(s) ==> c in s
  {
    hide Words;
    if s != [] && IsSpace(s[0]) {
      TrimmedLeftKeepsWords(s[1..]);
      WordsAround([], s[0], s[1..]);
      WordsOfNothing();
      assert s == [] + [s[0]] + s[1..];
    }
  }

  lemma {:induction false} TrimmedRightKeepsWords(s: string)
    ensures Words(TrimmedRight(s)) == Words(s)
    ensures forall c :: c in TrimmedRight(s) ==> c in s
  {
    hide Words;
    var n := |s| - 1;
    if s != [] && IsSpace(s[n]) {
      TrimmedRightKeepsWords(s[..n]);
      WordsAround(s[..n], s[n], []);
      WordsOfNothing();
      assert s == s[..n] + [s[n]] + [];
    }
  }

  predicate AllSpace(s: string) {
    forall k :: 0 <= k < |s| ==> IsSpace(s[k])
  }

  /** Trimming takes white space off both ends, all of it and nothing else. */
  lemma TrimmedExact(s: string)
    ensures exists l, r :: s == l + Trimmed(s) + r && AllSpace(l) && AllSpace(r)
    ensures Trimmed(s) != [] ==> !IsSpace(Trimmed(s)[0]) && !IsSpace(Trimmed(s)[|Trimmed(s)| - 1])
  {
    var l := LeftTrimmed(s);
    var r := RightTrimmed(TrimmedLeft(s));
    assert s == l + Trimmed(s) + r;
  }

  lemma {:induction false} LeftTrimmed(s: string) returns (l: string)
    ensures s == l + TrimmedLeft(s) && AllSpace(l)
    ensures TrimmedLeft(s) != [] ==> !IsSpace(TrimmedLeft(s)[0])
  {
    l := [];
    if s != [] && IsSpace(s[0]) {
      var rest := LeftTrimmed(s[1..]);
      l := [s[0]] + rest;
      assert s == [s[0]] + s[1..];
    }
  }

  lemma {:induction false} RightTrimmed(s: string) returns (r: string)
    ensures s == TrimmedRight(s) + r && AllSpace(r)
    ensures TrimmedRight(s) != [] ==> TrimmedRight(s)[0] == s[0] && !IsSpace(TrimmedRight(s)[|TrimmedRight(s)| - 1])
  {
    r := [];
    if s != [] && IsSpace(s[|s| - 1]) {
      var n := |s| - 1;
      var rest := RightTrimmed(s[..n]);
      r := rest + [s[n]];
      assert s == s[..n] + [s[n]];
    }
  }

  lemma TrimmedKeepsWords(s: string)
    ensures Words(Trimmed(s)) == Words(s)
    ensures forall c :: c in Trimmed(s) ==> c in s
  {
    hide Words;
    TrimmedLeftKeepsWords(s);
    TrimmedRightKeepsWords(TrimmedLeft(s));
  }

  /** White space at the ends does not matter for comparison. */
  lemma TrimmedComparesAlike(s: string)
    ensures CompareText(Trimmed(s)) == CompareText(s)
  {
    hide Words, CompareText;
    TrimmedLeftKeepsWords(s);
    TrimmedRightKeepsWords(TrimmedLeft(s));
    FoldedWordsOfWords(Trimmed(s), s);
    CompareTextIsWords(s);
    CompareTextIsWords(Trimmed(s));
  }
}
