/** Text operations as Python performs them. */
module Strings {
  import opened Wrappers

  /** The characters that `str.strip` drops and `\s` matches. */
  predicate IsSpace(c: char) {
    || c in {' ', '\t', '\n', '\r'} || '\U{b}' <= c <= '\U{c}' || '\U{1c}' <= c <= '\U{1f}'
       || c in {'\U{85}', '\U{a0}', '\U{1680}'}
    || '\U{2000}' <= c <= '\U{200a}' || c in {'\U{2028}', '\U{2029}', '\U{202f}', '\U{205f}', '\U{3000}'}
  }

  predicate AllSpace(s: string) { forall i :: 0 <= i < |s| ==> IsSpace(s[i]) }

  function StripLeft(s: string): string {
    if s != [] && IsSpace(s[0]) then StripLeft(s[1..]) else s
  }

  function StripRight(s: string): string {
    if s != [] && IsSpace(s[|s| - 1]) then StripRight(s[..|s| - 1]) else s
  }

  function Strip(s: string): string { StripRight(StripLeft(s)) }

  lemma {:induction false} StripLeftTrims(s: string)
    ensures StripLeft(s) == [] <==> AllSpace(s)
    ensures StripLeft(s) != [] ==> !IsSpace(StripLeft(s)[0])
    ensures forall c :: c in StripLeft(s) ==> c in s
  {
    if s != [] && IsSpace(s[0]) {
      StripLeftTrims(s[1..]);
      if AllSpace(s[1..]) {
        assert forall i :: 0 < i < |s| ==> s[i] == s[1..][i - 1];
      }
    }
  }

  lemma {:induction false} StripRightTrims(s: string)
    requires s != [] && !IsSpace(s[0])
    ensures StripRight(s) != [] && StripRight(s)[0] == s[0]
    ensures forall c :: c in StripRight(s) ==> c in s
  {
    if IsSpace(s[|s| - 1]) { StripRightTrims(s[..|s| - 1]); }
  }

  /** Stripping leaves nothing exactly of a blank text, and otherwise begins with a visible character. */
  lemma StripTrims(s: string)
    ensures Strip(s) == [] <==> AllSpace(s)
    ensures Strip(s) != [] ==> !IsSpace(Strip(s)[0])
    ensures forall c :: c in Strip(s) ==> c in s
  {
    StripLeftTrims(s);
    if StripLeft(s) != [] { StripRightTrims(StripLeft(s)); }
  }

  /** Every run of white space becomes one blank. */
  function Spaced(s: string): string
    decreases |s|
  {
    if s == [] then []
    else if IsSpace(s[0]) then (if |s| > 1 && IsSpace(s[1]) then Spaced(s[1..]) else " " + Spaced(s[1..]))
    else [s[0]] + Spaced(s[1..])
  }

  function Collapsed(s: string): string { Strip(Spaced(s)) }

  lemma {:induction false} SpacedIsPlain(s: string)
    ensures forall c :: c in Spaced(s) ==> c == ' ' || !IsSpace(c)
  {
    if s != [] { SpacedIsPlain(s[1..]); }
  }

  /** A collapsed text is one line: it starts with a visible character and its only white space is blanks. */
  lemma CollapsedIsOneLine(s: string)
    ensures Collapsed(s) != [] ==> !IsSpace(Collapsed(s)[0])
    ensures forall c :: c in Collapsed(s) ==> c == ' ' || !IsSpace(c)
  {
    SpacedIsPlain(s);
    StripTrims(Spaced(s));
  }

  // ----- what collapsing keeps ----------------------------------------------------------------

  /** The words of a text in order: what stands between its white space. */
  ghost predicate WordsOf(s: string, words: seq<string>)
    decreases |words|
  {
    if words == [] then AllSpace(s)
    else
      exists i, j | 0 <= i < j <= |s| :: IsWord(s, i, j) && s[i..j] == words[0] && WordsOf(s[j..], words[1..])
  }

  /** The first word of the text stands from `i` to `j`. */
  ghost predicate IsWord(s: string, i: nat, j: nat)
    requires i < j <= |s|
  {
    && (forall k :: 0 <= k < i ==> IsSpace(s[k])) && (forall k :: i <= k < j ==> !IsSpace(s[k]))
    && (j < |s| ==> IsSpace(s[j]))
  }

  /** With one blank between each two. */
  ghost function Line(words: seq<string>): string {
    if words == [] then "" else if |words| == 1 then words[0] else words[0] + " " + Line(words[1..])
  }

  /** Where the white space in front ends. */
  function Indent(s: string): (n: nat)
    ensures n <= |s| && (forall k :: 0 <= k < n ==> IsSpace(s[k])) && (n < |s| ==> !IsSpace(s[n]))
  {
    if s != [] && IsSpace(s[0]) then 1 + Indent(s[1..]) else 0
  }

  /** Where the first word ends. */
  function WordEnd(s: string): (n: nat)
    ensures n <= |s| && (forall k :: 0 <= k < n ==> !IsSpace(s[k])) && (n < |s| ==> IsSpace(s[n]))
    ensures s != [] && !IsSpace(s[0]) ==> n > 0
  {
    if s != [] && !IsSpace(s[0]) then 1 + WordEnd(s[1..]) else 0
  }

  lemma {:induction false} SpacedIndent(s: string)
    requires s != [] && IsSpace(s[0])
    ensures Spaced(s) == " " + Spaced(s[Indent(s)..])
    decreases |s|
  {
    if |s| > 1 && IsSpace(s[1]) {
      SpacedIndent(s[1..]);
      assert s[1..][Indent(s[1..])..] == s[Indent(s)..];
    } else {
      assert Indent(s) == 1;
    }
  }

  lemma {:induction false} SpacedWord(s: string)
    ensures Spaced(s) == s[..WordEnd(s)] + Spaced(s[WordEnd(s)..])
    decreases |s|
  {
    if s != [] && !IsSpace(s[0]) {
      SpacedWord(s[1..]);
      assert s[1..][WordEnd(s[1..])..] == s[WordEnd(s)..];
      assert s[..WordEnd(s)] == [s[0]] + s[1..][..WordEnd(s[1..])];
    } else {
      assert s[0..] == s;
    }
  }

  lemma WordsFrom(s: string, i: nat, j: nat, words: seq<string>)
    requires words != []
    requires i < j <= |s| && IsWord(s, i, j) && s[i..j] == words[0] && WordsOf(s[j..], words[1..])
    ensures WordsOf(s, words)
  {
  }

  lemma FirstWord(s: string, words: seq<string>) returns (i: nat, j: nat)
    requires words != [] && WordsOf(s, words)
    ensures i < j <= |s| && IsWord(s, i, j) && s[i..j] == words[0] && WordsOf(s[j..], words[1..])
  {
    i, j :| i < j <= |s| && IsWord(s, i, j) && s[i..j] == words[0] && WordsOf(s[j..], words[1..]);
  }

  lemma WordBehind(s: string, n: nat, i: nat, j: nat)
    requires n <= |s| && (forall k :: 0 <= k < n ==> IsSpace(s[k])) && i < j <= |s| - n && IsWord(s[n..], i, j)
    ensures IsWord(s, n + i, n + j) && s[n..][i..j] == s[n + i..n + j] && s[n..][j..] == s[n + j..]
  {
    assert forall k :: n <= k < |s| ==> s[k] == s[n..][k - n];
  }

  lemma IndentBefore(s: string, n: nat, words: seq<string>)
    requires n <= |s| && (forall k :: 0 <= k < n ==> IsSpace(s[k])) && WordsOf(s[n..], words)
    ensures WordsOf(s, words)
  {
    if words == [] {
      assert forall k :: n <= k < |s| ==> s[k] == s[n..][k - n];
    } else {
      var i, j := FirstWord(s[n..], words);
      WordBehind(s, n, i, j);
      WordsFrom(s, n + i, n + j, words);
    }
  }

  lemma LineOf(first: string, more: seq<string>, end: string, tail: string)
    requires tail == if more == [] then end else " " + (Line(more) + end)
    ensures first + tail == Line([first] + more) + end
  {
    var words := [first] + more;
    assert words[1..] == more;
    if more != [] { assert Line(words) == first + " " + Line(more); }
  }

  /** A text that starts with a visible character: its line, and a blank if white space comes last. */
  lemma {:induction false} SpacedIsLine(s: string) returns (words: seq<string>, end: string)
    requires s != [] ==> !IsSpace(s[0])
    ensures WordsOf(s, words) && Spaced(s) == Line(words) + end && end in {"", " "}
    ensures s != [] <==> words != []
    decreases |s|, 2
  {
    if s == [] {
      words, end := [], "";
    } else {
      var n := WordEnd(s);
      var first, rest := s[..n], s[n..];
      var more;
      more, end := AfterWord(rest);
      words := [first] + more;
      SpacedWord(s);
      LineOf(first, more, end, Spaced(rest));
      assert s[0..n] == first;
      assert words[1..] == more;
      WordsFrom(s, 0, n, words);
    }
  }

  /** What follows a word. */
  lemma {:induction false} AfterWord(rest: string) returns (more: seq<string>, end: string)
    requires rest != [] ==> IsSpace(rest[0])
    ensures WordsOf(rest, more) && end in {"", " "}
    ensures Spaced(rest) == (if more == [] then end else " " + (Line(more) + end))
    decreases |rest|, 1
  {
    if rest == [] {
      more, end := [], "";
    } else {
      more, end := AfterSpace(rest, rest[Indent(rest)..]);
    }
  }

  lemma {:induction false} AfterSpace(rest: string, tail: string) returns (more: seq<string>, end: string)
    requires rest != [] && IsSpace(rest[0]) && tail == rest[Indent(rest)..]
    ensures WordsOf(rest, more) && end in {"", " "}
    ensures Spaced(rest) == (if more == [] then end else " " + (Line(more) + end))
    decreases |rest|, 0
  {
    SpacedIndent(rest);
    assert Indent(rest) > 0;
    more, end := SpacedIsLine(tail);
    IndentBefore(rest, Indent(rest), more);
    if more == [] { end := " "; }
  }

  lemma {:induction false} LineIsVisible(s: string, words: seq<string>)
    requires words != [] && WordsOf(s, words)
    ensures Line(words) != [] && !IsSpace(Line(words)[0]) && !IsSpace(Line(words)[|Line(words)| - 1])
    decreases |words|
  {
    var i, j := FirstWord(s, words);
    var first, rest := words[0], words[1..];
    assert first[0] == s[i] && first[|first| - 1] == s[j - 1];
    if rest != [] {
      LineIsVisible(s[j..], rest);
      assert Line(words) == first + " " + Line(rest);
    }
  }

  lemma StripLine(start: string, line: string, end: string)
    requires start in {"", " "} && end in {"", " "}
    requires line == "" ==> end == ""
    requires line != "" ==> !IsSpace(line[0]) && !IsSpace(line[|line| - 1])
    ensures Strip(start + (line + end)) == line
  {
    StartStripped(start, line + end);
    EndStripped(line, end);
  }

  lemma EndStripped(line: string, end: string)
    requires (end == "" || (end == " " && line != "")) && (line != "" ==> !IsSpace(line[|line| - 1]))
    ensures StripRight(line + end) == line
  {
    var text := line + end;
    if end == " " {
      assert text[|text| - 1] == ' ' && text[..|text| - 1] == line;
      assert StripRight(line) == line;
    } else {
      assert text == line;
    }
  }

  lemma StartStripped(start: string, rest: string)
    requires start in {"", " "} && (rest != "" ==> !IsSpace(rest[0]))
    ensures StripLeft(start + rest) == rest
  {
    if start == " " { assert (start + rest)[1..] == rest; } else { assert start + rest == rest; }
  }

  /** A collapsed text is the words of the text with one blank between each two. */
  lemma CollapsedIsLine(s: string) returns (words: seq<string>)
    ensures WordsOf(s, words) && Collapsed(s) == Line(words)
  {
    var n := Indent(s);
    var end;
    words, end := SpacedIsLine(s[n..]);
    IndentBefore(s, n, words);
    if words != [] { LineIsVisible(s, words); }
    if n > 0 {
      SpacedIndent(s);
      StripLine(" ", Line(words), end);
    } else {
      assert s[0..] == s;
      StripLine("", Line(words), end);
      assert "" + (Line(words) + end) == Line(words) + end;
    }
  }

  lemma NoWordsIff(s: string, words: seq<string>)
    requires WordsOf(s, words)
    ensures words == [] <==> AllSpace(s)
  {
    if words != [] {
      var i, j := FirstWord(s, words);
      assert !IsSpace(s[i]);
    }
  }

  lemma {:induction false} SpacedShrinks(s: string)
    ensures |Spaced(s)| <= |s|
    decreases |s|
  {
    if s != [] { SpacedShrinks(s[1..]); }
  }

  lemma {:induction false} StripLeftShrinks(s: string)
    ensures |StripLeft(s)| <= |s|
  {
    if s != [] { StripLeftShrinks(s[1..]); }
  }

  lemma {:induction false} StripRightShrinks(s: string)
    ensures |StripRight(s)| <= |s|
  {
    if s != [] { StripRightShrinks(s[..|s| - 1]); }
  }

  lemma CollapsedShrinks(s: string)
    ensures |Collapsed(s)| <= |s|
  {
    SpacedShrinks(s);
    StripLeftShrinks(Spaced(s));
    StripRightShrinks(StripLeft(Spaced(s)));
  }

  function Take(s: string, n: nat): string { if |s| <= n then s else s[..n] }

  predicate At(text: string, pattern: string, i: nat) {
    i + |pattern| <= |text| && text[i..i + |pattern|] == pattern
  }

  ghost predicate Occurs(text: string, pattern: string) { exists i: nat :: At(text, pattern, i) }

  /** The first place at or after `from` where the pattern stands. */
  function Find(text: string, pattern: string, from: nat): (found: Option<nat>)
    ensures found.Some? ==> from <= found.value && At(text, pattern, found.value)
    ensures forall i: nat :: from <= i && (found.Some? ==> i < found.value) ==> !At(text, pattern, i)
    decreases |text| - from
  {
    if from + |pattern| > |text| then None
    else if At(text, pattern, from) then Some(from)
    else Find(text, pattern, from + 1)
  }

  lemma OccursWithin(before: string, text: string, after: string, pattern: string)
    requires Occurs(text, pattern)
    ensures Occurs(before + text + after, pattern)
    ensures exists i: nat :: At(before + text + after, pattern, i) && i + |pattern| <= |before + text|
  {
    var i: nat :| At(text, pattern, i);
    var whole := before + text + after;
    assert whole[|before| + i..|before| + i + |pattern|] == text[i..i + |pattern|];
    assert At(whole, pattern, |before| + i);
  }

  /** Reading a file turns every line ending into a line feed. */
  function ReadBack(s: string): string
    decreases |s|
  {
    if s == [] then []
    else if s[0] == '\r' then "\n" + ReadBack(if |s| > 1 && s[1] == '\n' then s[2..] else s[1..])
    else [s[0]] + ReadBack(s[1..])
  }

  /** How many characters of a non-empty text the next line feed or other character read back stands for. */
  function Unit(s: string): nat { if |s| > 1 && s[0] == '\r' && s[1] == '\n' then 2 else 1 }

  lemma UnitOfJoined(a: string, b: string)
    requires a != [] && (b == [] || b[0] != '\n')
    ensures Unit(a + b) == Unit(a) && (a + b)[Unit(a)..] == a[Unit(a)..] + b
  {
  }

  lemma ReadBackStep(s: string)
    requires s != []
    ensures ReadBack(s) == [if s[0] == '\r' then '\n' else s[0]] + ReadBack(s[Unit(s)..])
  {
  }

  lemma {:induction false} ReadBackSplits(a: string, b: string)
    requires b == [] || b[0] != '\n'
    ensures ReadBack(a + b) == ReadBack(a) + ReadBack(b)
    decreases |a|
  {
    if a == [] {
      assert a + b == b;
    } else {
      UnitOfJoined(a, b);
      ReadBackStep(a);
      ReadBackStep(a + b);
      ReadBackSplits(a[Unit(a)..], b);
    }
  }

  lemma {:induction false} ReadBackPlain(a: string, b: string)
    requires '\r' !in a
    ensures ReadBack(a + b) == a + ReadBack(b)
    decreases |a|
  {
    if a == [] {
      assert a + b == b;
    } else {
      ReadBackPlain(a[1..], b);
      assert (a + b)[1..] == a[1..] + b;
      assert [a[0]] + (a[1..] + ReadBack(b)) == a + ReadBack(b);
    }
  }
}
