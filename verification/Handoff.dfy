/**
 * The recovery handoff: a writer that lays collected evidence out under fixed headings
 * (jev_recovery_live.py), and the validator that reads it back (jev_agent_recovery_watchdog_v01.py).
 */
module Handoff {
  import opened Wrappers
  import opened Strings

  const REQUIRED := [
    "Task", "Previous Agent", "Session ID", "Recovery Generation", "Completed Work", "Changed Files",
    "Test Results", "Current Problem", "Failed Methods", "Remaining Work", "Next Agent First Action"
  ]

  function Marker(section: string): string { "## " + section + "\n" }

  // ----- the validator ---------------------------------------------------------------------------

  /** What stands between the first such heading and the next empty line. */
  function ValueAt(text: string, start: nat): string
    requires start <= |text|
  {
    var rest := text[start..];
    var end := Find(rest, "\n\n", 0);
    Strip(if end.Some? then rest[..end.value] else rest)
  }

  predicate FilledUnder(text: string, marker: string) {
    var first := Find(text, marker, 0);
    first.Some? && ValueAt(text, first.value + |marker|) != []
  }

  predicate SectionFilled(text: string, section: string) { FilledUnder(text, Marker(section)) }

  predicate Accepted(text: string, required: seq<string>) {
    Strip(text) != [] && forall i :: 0 <= i < |required| ==> SectionFilled(text, required[i])
  }

  method Validate(text: string, required: seq<string>) returns (ok: bool)
    ensures ok == Accepted(text, required)
  {
    if Strip(text) == [] { return false; }
    for i := 0 to |required| {
      if Find(text, "## " + required[i], 0).None? {
        NoHeadingNoSection(text, required, i);
        return false;
      }
    }
    for i := 0 to |required|
      invariant forall j :: 0 <= j < i ==> SectionFilled(text, required[j])
    {
      var m := Marker(required[i]);
      var first := Find(text, m, 0);
      if first.None? || ValueAt(text, first.value + |m|) == [] {
        assert !SectionFilled(text, required[i]);
        return false;
      }
      assert SectionFilled(text, required[i]);
    }
    ok := true;
  }

  lemma NoHeadingNoSection(text: string, required: seq<string>, i: nat)
    requires i < |required| && Find(text, "## " + required[i], 0).None?
    ensures !Accepted(text, required)
  {
    HeadingNeedsTitle(text, required[i]);
    assert !SectionFilled(text, required[i]);
  }

  lemma HeadingNeedsTitle(text: string, section: string)
    requires Find(text, "## " + section, 0).None?
    ensures Find(text, Marker(section), 0).None?
  {
    var first := Find(text, Marker(section), 0);
    if first.Some? { MarkerHoldsHeading(text, section, first.value); }
  }

  lemma MarkerHoldsHeading(text: string, section: string, i: nat)
    requires At(text, Marker(section), i)
    ensures At(text, "## " + section, i)
  {
    var heading := "## " + section;
    assert Marker(section)[..|heading|] == heading;
    assert text[i..i + |heading|] == text[i..i + |Marker(section)|][..|heading|];
  }

  // ----- texts in which no line break is left hanging -------------------------------------------------

  /** After a line break at `i` the next line, or the one after an empty one, begins with a visible character. */
  predicate Leads(text: string, i: nat)
    requires i < |text|
  {
    text[i] == '\n' ==>
      || (i + 1 < |text| && !IsSpace(text[i + 1]))
      || (i + 2 < |text| && text[i + 1] == '\n' && !IsSpace(text[i + 2]))
  }

  ghost predicate Clean(block: string) {
    && block != [] && !IsSpace(block[0]) && block[|block| - 1] != '\n'
    && forall i :: 0 <= i < |block| ==> Leads(block, i)
  }

  predicate OneLine(line: string) {
    line != [] && !IsSpace(line[0]) && '\n' !in line && '\r' !in line
  }

  lemma OneLineIsClean(line: string)
    requires OneLine(line)
    ensures Clean(line) && '\r' !in line
  {
  }

  lemma LeadsInFront(front: string, rest: string, i: nat)
    requires Clean(front) && i < |front|
    ensures Leads(front + rest, i)
  {
    assert Leads(front, i);
  }

  lemma LeadsInBack(before: string, back: string, tail: string, i: nat)
    requires i < |back| && Leads(back, i)
    ensures Leads(before + back + tail, |before| + i)
  {
  }

  lemma MarkerEndsLine(text: string, section: string, i: nat)
    requires At(text, Marker(section), i)
    ensures text[i + |Marker(section)| - 1] == '\n'
  {
    var m := Marker(section);
    assert text[i..i + |m|][|m| - 1] == m[|m| - 1];
  }

  lemma CleanJoin(a: string, between: string, b: string)
    requires Clean(a) && Clean(b) && between in {"", "\n", "\n\n"}
    ensures Clean(a + between + b)
  {
    var whole := a + between + b;
    forall i | 0 <= i < |whole| ensures Leads(whole, i) {
      if i < |a| {
        assert Leads(a, i);
      } else if i >= |a| + |between| {
        assert Leads(b, i - |a| - |between|);
      }
    }
  }

  /** A visible character before the first empty line makes the section non-empty. */
  lemma FilledAfter(text: string, e: nat)
    requires 0 < e <= |text| && text[e - 1] == '\n' && Leads(text, e - 1)
    ensures ValueAt(text, e) != []
  {
    var rest := text[e..];
    var end := Find(rest, "\n\n", 0);
    var value := if end.Some? then rest[..end.value] else rest;
    var i := if !IsSpace(text[e]) then 0 else 1;
    assert rest[i] == text[e + i] && !IsSpace(rest[i]);
    if end.Some? {
      assert rest[end.value] == "\n\n"[0] && rest[end.value + 1] == "\n\n"[1];
    }
    assert value[i] == rest[i];
    StripTrims(value);
  }

  // ----- fixed pieces with anything in between -----------------------------------------------------------

  /** The heading is not in front, it is in the middle, and under its first place there only an empty line follows. */
  predicate SpoiledUnder(front: string, middle: string, marker: string) {
    var first := Find(middle, marker, 0);
    Find(front, marker, 0).None? && first.Some? && BlankParagraph(middle[first.value + |marker|..])
  }

  predicate SpoiledBy(front: string, middle: string, section: string) { SpoiledUnder(front, middle, Marker(section)) }

  /** Nothing visible stands before an empty line that the text itself holds. */
  predicate BlankParagraph(rest: string) {
    var end := Find(rest, "\n\n", 0);
    end.Some? && AllSpace(rest[..end.value])
  }

  /**
   * The text ends in a character that the pattern does not hold, so the pattern cannot begin in it and end after it.
   */
  predicate Apart(front: string, pattern: string) {
    front != [] && front[|front| - 1] !in pattern
  }

  lemma FoundInFront(front: string, rest: string, m: string)
    requires Find(front, m, 0).Some?
    ensures Find(front + rest, m, 0) == Find(front, m, 0)
  {
    var k := Find(front, m, 0).value;
    AtInFront(front, rest, m, k);
    forall i: nat | i < k ensures !At(front + rest, m, i) {
      AtInFront(front, rest, m, i);
    }
  }

  lemma AtInFront(front: string, rest: string, m: string, i: nat)
    requires i + |m| <= |front|
    ensures At(front + rest, m, i) <==> At(front, m, i)
  {
    assert (front + rest)[i..i + |m|] == front[i..i + |m|];
  }

  lemma AtChar(text: string, m: string, i: nat, k: nat)
    requires At(text, m, i) && k < |m|
    ensures text[i + k] == m[k]
  {
    assert text[i..i + |m|][k] == text[i + k];
  }

  /** A pattern that is not in front is not found before the middle part either. */
  lemma NotInFront(front: string, rest: string, m: string, i: nat)
    requires m != [] && Find(front, m, 0).None? && Apart(front, m) && i < |front|
    ensures !At(front + rest, m, i)
  {
    if At(front + rest, m, i) {
      if i + |m| <= |front| { AtInFront(front, rest, m, i); } else { AtChar(front + rest, m, i, |front| - 1 - i); }
    }
  }

  lemma AtShifts(front: string, rest: string, m: string, i: nat)
    ensures At(front + rest, m, |front| + i) <==> At(rest, m, i)
  {
    if i + |m| <= |rest| { assert (front + rest)[|front| + i..|front| + i + |m|] == rest[i..i + |m|]; }
  }

  lemma NotFoundYet(front: string, rest: string, m: string, i: nat)
    requires m != [] && Find(front, m, 0).None? && Apart(front, m)
    requires Find(rest, m, 0).Some? ==> i < |front| + Find(rest, m, 0).value
    ensures !At(front + rest, m, i)
  {
    if i < |front| {
      NotInFront(front, rest, m, i);
    } else {
      AtShifts(front, rest, m, i - |front|);
    }
  }

  lemma NotBehindFront(front: string, rest: string, m: string)
    requires m != [] && Find(front, m, 0).None? && Apart(front, m) && Find(rest, m, 0).None?
    ensures Find(front + rest, m, 0).None?
  {
    var first := Find(front + rest, m, 0);
    if first.Some? { NotFoundYet(front, rest, m, first.value); }
  }

  lemma FoundBehindFront(front: string, rest: string, m: string, k: nat)
    requires m != [] && Find(front, m, 0).None? && Apart(front, m) && Find(rest, m, 0) == Some(k)
    ensures Find(front + rest, m, 0) == Some(|front| + k)
  {
    AtShifts(front, rest, m, k);
    var first := Find(front + rest, m, 0);
    if first.value < |front| + k { NotFoundYet(front, rest, m, first.value); }
  }

  /** What is left of the middle is followed by a visible character. */
  lemma ParagraphOf(rest: string, back: string)
    requires back != [] && !IsSpace(back[0])
    ensures ValueAt(rest + back, 0) == [] <==> BlankParagraph(rest)
  {
    var whole := rest + back;
    assert whole[0..] == whole;
    if Find(rest, "\n\n", 0).Some? {
      FoundInFront(rest, back, "\n\n");
      assert whole[..Find(rest, "\n\n", 0).value] == rest[..Find(rest, "\n\n", 0).value];
      StripTrims(rest[..Find(rest, "\n\n", 0).value]);
    } else {
      VisibleParagraph(rest, back);
    }
  }

  lemma VisibleParagraph(rest: string, back: string)
    requires back != [] && !IsSpace(back[0]) && Find(rest, "\n\n", 0).None?
    ensures ValueAt(rest + back, 0) != []
  {
    var whole := rest + back;
    assert whole[0..] == whole;
    var end := Find(whole, "\n\n", 0);
    if end.Some? && end.value <= |rest| { NotAcross(rest, back, "\n\n", end.value); }
    var value := if end.Some? then whole[..end.value] else whole;
    assert value[|rest|] == back[0];
    StripTrims(value);
  }

  lemma NotAcross(rest: string, back: string, m: string, i: nat)
    requires m != [] && back != [] && back[0] !in m && Find(rest, m, 0).None? && i <= |rest|
    ensures !At(rest + back, m, i)
  {
    if At(rest + back, m, i) {
      if i + |m| <= |rest| { AtInFront(rest, back, m, i); } else { AtChar(rest + back, m, i, |rest| - i); }
    }
  }

  lemma ValueFrom(before: string, rest: string)
    ensures ValueAt(before + rest, |before|) == ValueAt(rest, 0)
  {
    assert (before + rest)[|before|..] == rest[0..] == rest;
  }

  lemma OccursIsFound(text: string, pattern: string)
    ensures Occurs(text, pattern) <==> Find(text, pattern, 0).Some?
  {
  }

  /** A section is what its first heading is followed by. */
  lemma SectionAt(text: string, m: string, before: string, rest: string)
    requires text == before + rest && |before| >= |m| && Find(text, m, 0) == Some(|before| - |m|)
    ensures FilledUnder(text, m) <==> ValueAt(rest, 0) != []
  {
    ValueFrom(before, rest);
  }

  /** A heading that the middle does not hold ends behind the visible character that follows it. */
  lemma EndsBehind(middle: string, rest: string, m: string, j: nat)
    requires m != [] && m[|m| - 1] == '\n' && rest != [] && !IsSpace(rest[0])
    requires Find(middle, m, 0).None? && At(middle + rest, m, j)
    ensures j + |m| > |middle| + 1
  {
    if j + |m| <= |middle| { AtInFront(middle, rest, m, j); } else { AtChar(middle + rest, m, j, |m| - 1); }
  }

  lemma Between(middle: string, back: string, m: string, k: nat)
    requires m != [] && m[|m| - 1] == '\n' && back != [] && !IsSpace(back[0])
    requires Find(middle, m, 0).None? && Find(middle + back, m, 0) == Some(k)
    ensures |middle| + 1 < k + |m| <= |middle| + |back|
  {
    EndsBehind(middle, back, m, k);
  }

  lemma Reassociate(a: string, b: string, c: string)
    ensures a + (b + c) == (a + b) + c
  {
  }

  lemma FirstInBack(middle: string, back: string, tail: string, m: string)
    requires m != [] && m[|m| - 1] == '\n' && back != [] && !IsSpace(back[0])
    requires Find(middle, m, 0).None? && Find(middle + back, m, 0).Some?
    ensures var first := Find(middle + (back + tail), m, 0);
            first.Some? && |middle| + 1 < first.value + |m| <= |middle| + |back|
  {
    Between(middle, back, m, Find(middle + back, m, 0).value);
    Reassociate(middle, back, tail);
    FoundInWhole(middle + back, tail, m, middle + (back + tail));
  }

  lemma FoundInWhole(front: string, rest: string, m: string, whole: string)
    requires whole == front + rest && Find(front, m, 0).Some?
    ensures Find(whole, m, 0) == Find(front, m, 0)
  {
    FoundInFront(front, rest, m);
  }

  /** The heading's first place ends in the clean back part. */
  lemma FilledInBack(front: string, middle: string, back: string, tail: string, m: string)
    requires m != [] && m[|m| - 1] == '\n' && Clean(back) && Apart(front, m)
    requires Find(front, m, 0).None? && Find(middle, m, 0).None? && Find(middle + back, m, 0).Some?
    ensures FilledUnder(front + (middle + (back + tail)), m)
  {
    FirstInBack(middle, back, tail, m);
    var k := Find(middle + (back + tail), m, 0).value;
    FoundBehindFront(front, middle + (back + tail), m, k);
    Regroup(front, middle, back, tail);
    FilledAtEnd(front + middle, back, tail, m, front + (middle + (back + tail)), |front| + k);
  }

  lemma FilledAtEnd(before: string, back: string, tail: string, m: string, text: string, k: nat)
    requires m != [] && m[|m| - 1] == '\n' && Clean(back) && text == before + back + tail
    requires Find(text, m, 0) == Some(k) && |before| + 1 < k + |m| <= |before| + |back|
    ensures FilledUnder(text, m)
  {
    var e := k + |m|;
    assert text[k..e][|m| - 1] == text[e - 1];
    LeadsInBack(before, back, tail, e - 1 - |before|);
    FilledAfter(text, e);
  }

  lemma FilledInFront(front: string, rest: string, m: string)
    requires m != [] && m[|m| - 1] == '\n' && Clean(front) && Find(front, m, 0).Some?
    ensures FilledUnder(front + rest, m)
  {
    FoundInFront(front, rest, m);
    var k := Find(front, m, 0).value;
    var e := k + |m|;
    assert (front + rest)[k..e][|m| - 1] == (front + rest)[e - 1];
    LeadsInFront(front, rest, e - 1);
    FilledAfter(front + rest, e);
  }

  lemma FoundInMiddle(front: string, middle: string, rest: string, m: string)
    requires m != [] && Find(front, m, 0).None? && Apart(front, m) && Find(middle, m, 0).Some?
    ensures Find(front + (middle + rest), m, 0) == Some(|front| + Find(middle, m, 0).value)
  {
    FoundInFront(middle, rest, m);
    FoundBehindFront(front, middle + rest, m, Find(middle, m, 0).value);
  }

  lemma FilledInMiddleIff(front: string, middle: string, rest: string, m: string)
    requires m != [] && Find(front, m, 0).None? && Apart(front, m)
    requires Find(middle, m, 0).Some? && rest != [] && !IsSpace(rest[0])
    ensures FilledUnder(front + (middle + rest), m) <==> !SpoiledUnder(front, middle, m)
  {
    FoundInMiddle(front, middle, rest, m);
    FilledAt(front, middle, rest, m, front + (middle + rest), Find(middle, m, 0).value + |m|);
  }

  lemma FilledAt(front: string, middle: string, rest: string, m: string, text: string, k: nat)
    requires text == front + (middle + rest) && |m| <= k <= |middle| && rest != [] && !IsSpace(rest[0])
    requires Find(text, m, 0) == Some(|front| + k - |m|)
    ensures FilledUnder(text, m) <==> !BlankParagraph(middle[k..])
  {
    RegroupAt(front, middle, rest, k);
    SectionAt(text, m, front + middle[..k], middle[k..] + rest);
    ParagraphOf(middle[k..], rest);
  }

  lemma RegroupAt(front: string, middle: string, rest: string, k: nat)
    requires k <= |middle|
    ensures front + (middle + rest) == (front + middle[..k]) + (middle[k..] + rest)
  {
    assert middle == middle[..k] + middle[k..];
  }

  /** A text from outside, and the fixed piece that follows it. */
  datatype Gap = Gap(text: string, after: string)

  /** What follows the first fixed piece. */
  function Rest(gaps: seq<Gap>, tail: string): string {
    if gaps == [] then tail else gaps[0].text + (gaps[0].after + Rest(gaps[1..], tail))
  }

  /** What stands before the text of gap `g`. */
  function BeforeGap(front: string, gaps: seq<Gap>, g: nat): string
    requires g < |gaps|
    decreases g
  {
    if g == 0 then front else BeforeGap(front + gaps[0].text + gaps[0].after, gaps[1..], g - 1)
  }

  /** The fixed pieces are clean, and all but the last end in a character that is in no heading. */
  ghost predicate Framing(gaps: seq<Gap>, m: string) {
    && (forall k :: 0 <= k < |gaps| ==> Clean(gaps[k].after))
    && forall k :: 0 <= k < |gaps| - 1 ==> Apart(gaps[k].after, m)
  }

  ghost predicate MentionedAfter(gaps: seq<Gap>, m: string) {
    exists k :: 0 <= k < |gaps| && Occurs(gaps[k].after, m)
  }

  lemma {:induction false} HeadingStays(front: string, gaps: seq<Gap>, g: nat, m: string)
    requires g < |gaps| && Find(front, m, 0).Some?
    ensures Find(BeforeGap(front, gaps, g), m, 0).Some?
    decreases g
  {
    if g > 0 {
      FoundInFront(front, gaps[0].text + gaps[0].after, m);
      assert front + (gaps[0].text + gaps[0].after) == front + gaps[0].text + gaps[0].after;
      HeadingStays(front + gaps[0].text + gaps[0].after, gaps[1..], g - 1, m);
    }
  }

  /** Once the heading is behind gap 0, no later gap spoils its section. */
  lemma LaterGapsSpoilNothing(front: string, gaps: seq<Gap>, m: string, g: nat)
    requires 1 <= g < |gaps| && Find(front + gaps[0].text + gaps[0].after, m, 0).Some?
    ensures !SpoiledUnder(BeforeGap(front, gaps, g), gaps[g].text, m)
  {
    HeadingStays(front + gaps[0].text + gaps[0].after, gaps[1..], g - 1, m);
  }

  lemma FoundBehind(front: string, rest: string, m: string)
    requires Find(rest, m, 0).Some?
    ensures Find(front + rest, m, 0).Some?
  {
    AtShifts(front, rest, m, Find(rest, m, 0).value);
  }

  lemma FoundByGap(front: string, gap: Gap, m: string)
    requires Find(gap.text + gap.after, m, 0).Some?
    ensures Find(front + gap.text + gap.after, m, 0).Some?
  {
    FoundBehind(front, gap.text + gap.after, m);
    assert front + (gap.text + gap.after) == front + gap.text + gap.after;
  }

  lemma NotFoundByGap(front: string, gap: Gap, m: string)
    requires m != [] && Find(front, m, 0).None? && Apart(front, m) && Apart(gap.after, m)
    requires Find(gap.text + gap.after, m, 0).None?
    ensures Find(front + gap.text + gap.after, m, 0).None? && Apart(front + gap.text + gap.after, m)
  {
    NotBehindFront(front, gap.text + gap.after, m);
    assert front + (gap.text + gap.after) == front + gap.text + gap.after;
  }

  /** Is the section free of spoiling gaps? */
  predicate Unspoiled(front: string, gaps: seq<Gap>, m: string) {
    forall g :: 0 <= g < |gaps| ==> !SpoiledUnder(BeforeGap(front, gaps, g), gaps[g].text, m)
  }

  lemma UnspoiledFirst(front: string, gaps: seq<Gap>, m: string)
    requires gaps != [] && Find(gaps[0].text + gaps[0].after, m, 0).Some?
    ensures Unspoiled(front, gaps, m) <==> !SpoiledUnder(front, gaps[0].text, m)
  {
    FoundByGap(front, gaps[0], m);
    forall g | 1 <= g < |gaps| ensures !SpoiledUnder(BeforeGap(front, gaps, g), gaps[g].text, m) {
      LaterGapsSpoilNothing(front, gaps, m, g);
    }
    assert BeforeGap(front, gaps, 0) == front;
  }

  lemma UnspoiledRest(front: string, gaps: seq<Gap>, m: string)
    requires gaps != [] && Find(gaps[0].text, m, 0).None?
    ensures Unspoiled(front, gaps, m) <==> Unspoiled(front + gaps[0].text + gaps[0].after, gaps[1..], m)
  {
    var next, rest := front + gaps[0].text + gaps[0].after, gaps[1..];
    forall g | 1 <= g < |gaps|
      ensures BeforeGap(front, gaps, g) == BeforeGap(next, rest, g - 1) && gaps[g] == rest[g - 1]
    {
    }
    if Unspoiled(front, gaps, m) {
      forall g | 0 <= g < |rest| ensures !SpoiledUnder(BeforeGap(next, rest, g), rest[g].text, m) {
        assert !SpoiledUnder(BeforeGap(front, gaps, g + 1), gaps[g + 1].text, m);
      }
    }
    if Unspoiled(next, rest, m) {
      forall g | 0 <= g < |gaps| ensures !SpoiledUnder(BeforeGap(front, gaps, g), gaps[g].text, m) {
        if g > 0 { assert !SpoiledUnder(BeforeGap(next, rest, g - 1), rest[g - 1].text, m); }
      }
    }
  }

  /** A heading that the front does not hold: its section is filled exactly when no gap spoils it. */
  lemma {:induction false} FilledBehindIff(front: string, gaps: seq<Gap>, tail: string, m: string)
    requires m != [] && m[|m| - 1] == '\n' && Find(front, m, 0).None? && Apart(front, m)
    requires Framing(gaps, m) && MentionedAfter(gaps, m)
    ensures FilledUnder(front + Rest(gaps, tail), m) <==> Unspoiled(front, gaps, m)
    decreases |gaps|
  {
    var u, c, rest := gaps[0].text, gaps[0].after, Rest(gaps[1..], tail);
    if Find(u, m, 0).Some? {
      FoundInFront(u, c, m);
      FilledInMiddleIff(front, u, c + rest, m);
      UnspoiledFirst(front, gaps, m);
    } else if Find(u + c, m, 0).Some? {
      FilledInBack(front, u, c, rest, m);
      UnspoiledFirst(front, gaps, m);
    } else {
      MentionedLater(gaps, m);
      NotFoundByGap(front, gaps[0], m);
      FilledBehindIff(front + u + c, gaps[1..], tail, m);
      UnspoiledRest(front, gaps, m);
      Regroup(front, u, c, rest);
    }
  }

  lemma MentionedLater(gaps: seq<Gap>, m: string)
    requires Framing(gaps, m) && MentionedAfter(gaps, m) && Find(gaps[0].text + gaps[0].after, m, 0).None?
    ensures Framing(gaps[1..], m) && MentionedAfter(gaps[1..], m) && Apart(gaps[0].after, m)
  {
    NotMentionedHere(gaps[0], m);
    var k :| 0 <= k < |gaps| && Occurs(gaps[k].after, m);
    assert k > 0 && gaps[1..][k - 1] == gaps[k];
  }

  lemma NotMentionedHere(gap: Gap, m: string)
    requires Find(gap.text + gap.after, m, 0).None?
    ensures !Occurs(gap.after, m)
  {
    OccursIsFound(gap.after, m);
    if Find(gap.after, m, 0).Some? { FoundBehind(gap.text, gap.after, m); }
  }

  /** Between clean pieces a section is empty exactly when some gap spoils it. */
  lemma SectionFilledIff(front: string, gaps: seq<Gap>, tail: string, section: string)
    requires Clean(front) && Apart(front, Marker(section)) && Framing(gaps, Marker(section))
    requires Occurs(front, Marker(section)) || MentionedAfter(gaps, Marker(section))
    ensures SectionFilled(front + Rest(gaps, tail), section) <==> Unspoiled(front, gaps, Marker(section))
  {
    var m := Marker(section);
    OccursIsFound(front, m);
    if Find(front, m, 0).Some? {
      FilledInFront(front, Rest(gaps, tail), m);
      forall g | 0 <= g < |gaps| ensures !SpoiledUnder(BeforeGap(front, gaps, g), gaps[g].text, m) {
        HeadingStays(front, gaps, g, m);
      }
    } else {
      FilledBehindIff(front, gaps, tail, m);
    }
  }

  /** A first clean piece and further ones that hold all the headings. */
  ghost predicate Frames(front: string, gaps: seq<Gap>, required: seq<string>) {
    && Clean(front)
    && forall i :: 0 <= i < |required| ==>
         && Apart(front, Marker(required[i])) && Framing(gaps, Marker(required[i]))
         && (Occurs(front, Marker(required[i])) || MentionedAfter(gaps, Marker(required[i])))
  }

  /** The text is accepted exactly when no gap spoils a required section. */
  lemma AcceptedIff(front: string, gaps: seq<Gap>, tail: string, required: seq<string>)
    requires Frames(front, gaps, required)
    ensures Accepted(front + Rest(gaps, tail), required) <==>
            forall i :: 0 <= i < |required| ==> Unspoiled(front, gaps, Marker(required[i]))
  {
    var text := front + Rest(gaps, tail);
    assert text[0] == front[0];
    StripTrims(text);
    forall i | 0 <= i < |required|
      ensures SectionFilled(text, required[i]) <==> Unspoiled(front, gaps, Marker(required[i]))
    {
      SectionFilledIff(front, gaps, tail, required[i]);
    }
  }

  // ----- the writer --------------------------------------------------------------------------------------

  /** The collected evidence; a context that could not be read counts as empty. */
  datatype Evidence = Evidence(
    agent: string, session: string, sessionKey: string, user: string, assistant: seq<string>, commands: seq<string>,
    runId: string, runStatus: string, kind: string, severity: string, createdAt: string)

  /** The fixed sentences of the form, whatever their wording. */
  datatype Wording = Wording(
    continueFrom: string, noWork: string, noFiles: string, runLabel: string, statusLabel: string, runNote: string,
    triggerLabel: string, severityLabel: string, problemNote: string, noCommand: string, notLoop: string,
    remaining: string, firstAction: string, writer: string, safety: string)

  /** Up to `limit` non-empty collapsed texts, each cut to `width`. */
  function Bounded(values: seq<string>, limit: nat, width: nat): seq<string> {
    if values == [] || limit == 0 then []
    else if Collapsed(values[0]) == [] then Bounded(values[1..], limit, width)
    else [Take(Collapsed(values[0]), width)] + Bounded(values[1..], limit - 1, width)
  }

  function BoundedLines(values: seq<string>, fallback: string, limit: nat, width: nat): seq<string> {
    var out := Bounded(values, limit, width);
    if out == [] then [fallback] else out
  }

  /** The lines with one more text, unless it is empty. */
  function Kept(out: seq<string>, text: string, width: nat): seq<string> {
    if text == [] then out else out + [Take(text, width)]
  }

  /** The lines so far and those still to come make up the goal. */
  ghost predicate ToCome(values: seq<string>, i: nat, out: seq<string>, limit: nat, width: nat, goal: seq<string>) {
    i <= |values| && |out| <= limit && goal == out + Bounded(values[i..], limit - |out|, width)
  }

  lemma BoundedNext(values: seq<string>, i: nat, out: seq<string>, limit: nat, width: nat, goal: seq<string>)
    requires ToCome(values, i, out, limit, width, goal) && i < |values| && |out| < limit
    ensures ToCome(values, i + 1, Kept(out, Collapsed(values[i]), width), limit, width, goal)
  {
    assert values[i..][1..] == values[i + 1..];
    var text := Collapsed(values[i]);
    if text != [] {
      var rest := Bounded(values[i + 1..], limit - |out| - 1, width);
      assert out + ([Take(text, width)] + rest) == (out + [Take(text, width)]) + rest;
    }
  }

  lemma BoundedStart(values: seq<string>, limit: nat, width: nat)
    ensures ToCome(values, 0, [], limit, width, Bounded(values, limit, width))
  {
    assert values[0..] == values;
  }

  lemma BoundedEnd(values: seq<string>, i: nat, out: seq<string>, limit: nat, width: nat, goal: seq<string>)
    requires ToCome(values, i, out, limit, width, goal) && (i == |values| || limit == |out|)
    ensures out == goal
  {
  }

  method CollectLines(values: seq<string>, fallback: string, limit: nat, width: nat) returns (out: seq<string>)
    requires 0 < limit
    ensures out == BoundedLines(values, fallback, limit, width)
    ensures PickedOr(values, fallback, limit, width, out)
  {
    LinesArePicked(values, fallback, limit, width);
    out := CollectBounded(values, limit, width);
    if out == [] { out := [fallback]; }
  }

  method CollectBounded(values: seq<string>, limit: nat, width: nat) returns (out: seq<string>)
    ensures out == Bounded(values, limit, width)
  {
    out := [];
    var i := 0;
    ghost var goal := Bounded(values, limit, width);
    BoundedStart(values, limit, width);
    while i < |values| && |out| < limit
      invariant 0 <= i <= |values| && |out| <= limit
      invariant ToCome(values, i, out, limit, width, goal)
    {
      BoundedNext(values, i, out, limit, width, goal);
      out := Kept(out, Collapsed(values[i]), width);
      i := i + 1;
    }
    BoundedEnd(values, i, out, limit, width, goal);
  }

  function Bullets(values: seq<string>): string {
    if values == [] then ""
    else if |values| == 1 then "- " + values[0]
    else "- " + values[0] + "\n" + Bullets(values[1..])
  }

  function Joined(blocks: seq<string>): string {
    if blocks == [] then ""
    else if |blocks| == 1 then blocks[0]
    else blocks[0] + "\n\n" + Joined(blocks[1..])
  }

  function Section(title: string, body: string): string { Marker(title) + body }

  function TaskText(f: Evidence, w: Wording): string {
    var user := Take(Collapsed(Take(f.user, 1200)), 1200);
    if user == [] then w.continueFrom + f.session + "." else user
  }

  function FailedMethods(f: Evidence, w: Wording): seq<string> {
    if f.kind == "LOOP" then BoundedLines(f.commands, w.noCommand, 4, 500) else [w.notLoop]
  }

  /** What each section says, up to the first field of the run or the detection. */
  function Bodies(f: Evidence, w: Wording): seq<string> {
    BodiesWith(f, w, TaskText(f, w), Bullets(BoundedLines(f.assistant, w.noWork, 3, 700)), Bullets(FailedMethods(f, w)))
  }

  function BodiesWith(f: Evidence, w: Wording, task: string, work: string, failed: string): seq<string> {
    [ task,
      f.agent,
      f.session,
      "1",
      work,
      "- " + w.noFiles,
      "- " + w.runLabel,
      w.triggerLabel,
      failed,
      "- " + w.remaining + Take(task, 800),
      w.firstAction ]
  }

  /** The headed sections from `i` up to `j`. */
  function Sections(titles: seq<string>, bodies: seq<string>, i: nat, j: nat): seq<string>
    requires i <= j <= |titles| && |titles| == |bodies|
  {
    seq(j - i, k requires 0 <= k < j - i => Section(titles[i + k], bodies[i + k]))
  }

  /** Up to the run id, which stands in the seventh section. */
  function Opening(f: Evidence, w: Wording): string {
    Joined(["# RECOVERY_HANDOFF"] + Sections(REQUIRED, Bodies(f, w), 0, 7))
  }

  /** From the run's status to the trigger. */
  function Turning(f: Evidence, w: Wording): string { Joined([w.runNote] + Sections(REQUIRED, Bodies(f, w), 7, 8)) }

  /** From the severity to the last required section. */
  function Closing(f: Evidence, w: Wording): string {
    Joined([". " + w.problemNote] + Sections(REQUIRED, Bodies(f, w), 8, 11))
  }

  /** The run id, its status, the trigger and the severity, as they come. */
  function Gaps(f: Evidence, w: Wording): seq<Gap> {
    [ Gap(f.runId, w.statusLabel),
      Gap(f.runStatus, Turning(f, w)),
      Gap(f.kind, w.severityLabel),
      Gap(f.severity, Closing(f, w)) ]
  }

  function Footer(f: Evidence, w: Wording): string {
    "\n\n## Recovery Metadata\n- source_session_key: " + f.sessionKey
    + "\n- writer: " + w.writer + "\n- created_at: " + f.createdAt + "\n\n## Safety\n- " + w.safety + "\n"
  }

  function Written(f: Evidence, w: Wording): string {
    Opening(f, w) + Rest(Gaps(f, w), Footer(f, w))
  }

  // ----- what is written ---------------------------------------------------------------------------------

  ghost predicate FirstOf(part: string, s: string, width: nat) {
    if |s| <= width then part == s else part == s[..width]
  }

  /** The words of the text on one line, cut to the width. */
  ghost predicate CutLine(line: string, value: string, width: nat) {
    exists words :: WordsOf(value, words) && FirstOf(line, Line(words), width)
  }

  /** The lines are the first texts with a visible character, as many as the limit allows, each on one line and cut. */
  ghost predicate PickedAt(values: seq<string>, limit: nat, width: nat, lines: seq<string>, at: seq<nat>) {
    && |at| == |lines| <= limit && (forall k, l :: 0 <= k < l < |at| ==> at[k] < at[l])
    && (forall k :: 0 <= k < |at| ==>
          at[k] < |values| && !AllSpace(values[at[k]]) && CutLine(lines[k], values[at[k]], width))
    && forall i :: 0 <= i < |values| && !AllSpace(values[i]) && i !in at ==>
         |at| == limit && forall k :: 0 <= k < |at| ==> at[k] < i
  }

  ghost predicate Picked(values: seq<string>, limit: nat, width: nat, lines: seq<string>) {
    exists at :: PickedAt(values, limit, width, lines, at)
  }

  /** Or the fallback when no text has a visible character. */
  ghost predicate PickedOr(values: seq<string>, fallback: string, limit: nat, width: nat, lines: seq<string>) {
    if forall i :: 0 <= i < |values| ==> AllSpace(values[i]) then lines == [fallback]
    else Picked(values, limit, width, lines)
  }

  /** Each line after a dash, the last one at the end. */
  ghost predicate IsList(text: string, lines: seq<string>)
    decreases |lines|
  {
    && lines != []
    && if |lines| == 1 then text == "- " + lines[0]
       else
         var end := "\n- " + lines[|lines| - 1];
         |text| >= |end| && text[|text| - |end|..] == end && IsList(text[..|text| - |end|], lines[..|lines| - 1])
  }

  ghost predicate ListSays(text: string, values: seq<string>, fallback: string, limit: nat, width: nat) {
    exists lines :: PickedOr(values, fallback, limit, width, lines) && IsList(text, lines)
  }

  /** The user's words as far as the first 1200 characters go, or the session to go on with if there are none. */
  ghost predicate TaskSays(text: string, user: string, instead: string) {
    exists start :: FirstOf(start, user, 1200) &&
      if AllSpace(start) then text == instead else exists words :: WordsOf(start, words) && text == Line(words)
  }

  /** What stands under the first six headings. */
  ghost predicate SaysWhatWas(task: string, agent: string, session: string, generation: string, work: string,
                              files: string, f: Evidence, w: Wording)
  {
    && TaskSays(task, f.user, w.continueFrom + f.session + ".")
    && agent == f.agent && session == f.session && generation == "1"
    && ListSays(work, f.assistant, w.noWork, 3, 700)
    && files == "- " + w.noFiles
  }

  /** What stands under the others. */
  ghost predicate SaysWhatNow(run: string, problem: string, failed: string, remaining: string, next: string,
                              task: string, f: Evidence, w: Wording)
  {
    && run == "- " + w.runLabel + f.runId + w.statusLabel + f.runStatus + w.runNote
    && problem == w.triggerLabel + f.kind + w.severityLabel + f.severity + ". " + w.problemNote
    && (if f.kind == "LOOP" then ListSays(failed, f.commands, w.noCommand, 4, 500) else failed == "- " + w.notLoop)
    && (exists start :: FirstOf(start, task, 800) && remaining == "- " + w.remaining + start)
    && next == w.firstAction
  }

  /** What stands under the eleven headings. */
  ghost predicate Says(bodies: seq<string>, f: Evidence, w: Wording) {
    && |bodies| == 11
    && SaysWhatWas(bodies[0], bodies[1], bodies[2], bodies[3], bodies[4], bodies[5], f, w)
    && SaysWhatNow(bodies[6], bodies[7], bodies[8], bodies[9], bodies[10], bodies[0], f, w)
  }

  /** The headings from `i` up to `j`, each on a line of its own behind an empty line, with what stands under them. */
  ghost function Chapters(titles: seq<string>, bodies: seq<string>, i: nat, j: nat): string
    requires i <= j <= |titles| && |titles| == |bodies|
    decreases j - i
  {
    if i == j then "" else "\n\n## " + titles[i] + "\n" + bodies[i] + Chapters(titles, bodies, i + 1, j)
  }

  lemma CutIsFirst(s: string, width: nat)
    ensures FirstOf(Take(s, width), s, width)
  {
  }

  lemma CutIsLine(value: string, width: nat)
    ensures CutLine(Take(Collapsed(value), width), value, width)
  {
    var words := CollapsedIsLine(value);
  }

  lemma CollapsedBlank(s: string)
    ensures Collapsed(s) == [] <==> AllSpace(s)
  {
    var words := CollapsedIsLine(s);
    NoWordsIff(s, words);
    if words != [] { LineIsVisible(s, words); }
  }

  /** The places one further on, behind one more in front. */
  ghost function Later(at: seq<nat>): seq<nat> { seq(|at|, k requires 0 <= k < |at| => at[k] + 1) }

  lemma SkipFirst(values: seq<string>, limit: nat, width: nat, lines: seq<string>, at: seq<nat>)
    requires values != [] && AllSpace(values[0]) && PickedAt(values[1..], limit, width, lines, at)
    ensures PickedAt(values, limit, width, lines, Later(at))
  {
    LaterHolds(values, at);
    forall i | 0 <= i < |values| && !AllSpace(values[i]) && i !in Later(at)
      ensures |at| == limit && forall k :: 0 <= k < |at| ==> Later(at)[k] < i
    {
      assert values[1..][i - 1] == values[i];
    }
  }

  lemma LaterHolds(values: seq<string>, at: seq<nat>)
    requires values != [] && forall k :: 0 <= k < |at| ==> at[k] < |values| - 1
    ensures forall k :: 0 <= k < |at| ==> values[Later(at)[k]] == values[1..][at[k]]
    ensures forall i: nat :: i > 0 && i - 1 in at ==> i in Later(at)
  {
    forall i: nat | i > 0 && i - 1 in at ensures i in Later(at) {
      var k :| 0 <= k < |at| && at[k] == i - 1;
      assert Later(at)[k] == i;
    }
  }

  lemma TakeFirst(values: seq<string>, limit: nat, width: nat, line: string, lines: seq<string>, at: seq<nat>)
    requires values != [] && limit > 0 && !AllSpace(values[0]) && CutLine(line, values[0], width)
    requires PickedAt(values[1..], limit - 1, width, lines, at)
    ensures PickedAt(values, limit, width, [line] + lines, [0] + Later(at))
  {
    var all := [0] + Later(at);
    LaterHolds(values, at);
    TakenInOrder(at, all);
    forall i | 0 <= i < |values| && !AllSpace(values[i]) && i !in all
      ensures |all| == limit && forall k :: 0 <= k < |all| ==> all[k] < i
    {
      PastTaken(values, limit, at, all, i);
    }
    TakenLines(values, width, [line] + lines, at, all);
  }

  lemma TakenInOrder(at: seq<nat>, all: seq<nat>)
    requires all == [0] + Later(at) && forall k, l :: 0 <= k < l < |at| ==> at[k] < at[l]
    ensures forall k, l :: 0 <= k < l < |all| ==> all[k] < all[l]
  {
    forall k, l | 0 <= k < l < |all| ensures all[k] < all[l] {
      assert all[l] == at[l - 1] + 1;
      if k > 0 { assert all[k] == at[k - 1] + 1 && at[k - 1] < at[l - 1]; }
    }
  }

  lemma PastTaken(values: seq<string>, limit: nat, at: seq<nat>, all: seq<nat>, i: nat)
    requires limit > 0 && all == [0] + Later(at) && i < |values| && !AllSpace(values[i]) && i !in all
    requires forall j: nat :: j > 0 && j - 1 in at ==> j in Later(at)
    requires forall j :: 0 <= j < |values[1..]| && !AllSpace(values[1..][j]) && j !in at ==>
               |at| == limit - 1 && forall k :: 0 <= k < |at| ==> at[k] < j
    ensures |all| == limit && forall k :: 0 <= k < |all| ==> all[k] < i
  {
    assert all[0] == 0 && i > 0;
    assert values[1..][i - 1] == values[i];
    assert i - 1 !in at by { assert i in Later(at) ==> i in all; }
  }

  lemma TakenLines(values: seq<string>, width: nat, lines: seq<string>, at: seq<nat>, all: seq<nat>)
    requires all == [0] + Later(at) && |lines| == |at| + 1 && values != []
    requires !AllSpace(values[0]) && CutLine(lines[0], values[0], width)
    requires forall k :: 0 <= k < |at| ==>
               at[k] < |values| - 1 && !AllSpace(values[1..][at[k]])
                 && CutLine(lines[1..][k], values[1..][at[k]], width)
    ensures forall k :: 0 <= k < |all| ==>
              all[k] < |values| && !AllSpace(values[all[k]]) && CutLine(lines[k], values[all[k]], width)
  {
    forall k | 0 < k < |all|
      ensures all[k] < |values| && !AllSpace(values[all[k]]) && CutLine(lines[k], values[all[k]], width)
    {
      assert all[k] == at[k - 1] + 1 && values[all[k]] == values[1..][at[k - 1]] && lines[k] == lines[1..][k - 1];
    }
  }

  lemma {:induction false} BoundedPicks(values: seq<string>, limit: nat, width: nat) returns (at: seq<nat>)
    ensures PickedAt(values, limit, width, Bounded(values, limit, width), at)
    decreases |values|
  {
    if values == [] || limit == 0 {
      at := [];
    } else {
      CollapsedBlank(values[0]);
      if AllSpace(values[0]) {
        var rest := BoundedPicks(values[1..], limit, width);
        SkipFirst(values, limit, width, Bounded(values, limit, width), rest);
        at := Later(rest);
      } else {
        var rest := BoundedPicks(values[1..], limit - 1, width);
        CutIsLine(values[0], width);
        TakeFirst(values, limit, width, Take(Collapsed(values[0]), width), Bounded(values[1..], limit - 1, width),
                  rest);
        at := [0] + Later(rest);
      }
    }
  }

  lemma PickedNone(values: seq<string>, limit: nat, width: nat, lines: seq<string>, at: seq<nat>)
    requires limit > 0 && PickedAt(values, limit, width, lines, at)
    ensures lines == [] <==> forall i :: 0 <= i < |values| ==> AllSpace(values[i])
  {
    if lines != [] { assert !AllSpace(values[at[0]]); }
  }

  lemma LinesArePicked(values: seq<string>, fallback: string, limit: nat, width: nat)
    requires limit > 0
    ensures PickedOr(values, fallback, limit, width, BoundedLines(values, fallback, limit, width))
  {
    var at := BoundedPicks(values, limit, width);
    PickedNone(values, limit, width, Bounded(values, limit, width), at);
  }

  lemma {:induction false} BulletsEnd(values: seq<string>)
    requires |values| > 1
    ensures Bullets(values) == Bullets(values[..|values| - 1]) + ("\n- " + values[|values| - 1])
  {
    var front := values[..|values| - 1];
    if |values| > 2 {
      BulletsEnd(values[1..]);
      assert values[1..][..|values| - 2] == front[1..];
    } else {
      assert front == [values[0]] && values[1..] == [values[1]];
    }
  }

  lemma {:induction false} BulletsAreList(values: seq<string>)
    requires values != []
    ensures IsList(Bullets(values), values)
    decreases |values|
  {
    if |values| > 1 {
      BulletsEnd(values);
      var front, end := Bullets(values[..|values| - 1]), "\n- " + values[|values| - 1];
      assert (front + end)[|front|..] == end && (front + end)[..|front|] == front;
      BulletsAreList(values[..|values| - 1]);
    }
  }

  lemma BulletsSay(values: seq<string>, fallback: string, limit: nat, width: nat)
    requires limit > 0
    ensures ListSays(Bullets(BoundedLines(values, fallback, limit, width)), values, fallback, limit, width)
  {
    LinesArePicked(values, fallback, limit, width);
    BulletsAreList(BoundedLines(values, fallback, limit, width));
  }

  lemma TaskMeans(f: Evidence, w: Wording)
    ensures TaskSays(TaskText(f, w), f.user, w.continueFrom + f.session + ".")
  {
    var start := Take(f.user, 1200);
    CutIsFirst(f.user, 1200);
    CollapsedShrinks(start);
    CollapsedBlank(start);
    var words := CollapsedIsLine(start);
  }

  lemma FailedMean(f: Evidence, w: Wording)
    ensures if f.kind == "LOOP" then ListSays(Bullets(FailedMethods(f, w)), f.commands, w.noCommand, 4, 500)
            else Bullets(FailedMethods(f, w)) == "- " + w.notLoop
  {
    if f.kind == "LOOP" { BulletsSay(f.commands, w.noCommand, 4, 500); }
  }

  lemma WasSaid(f: Evidence, w: Wording, task: string, work: string)
    requires task == TaskText(f, w) && work == Bullets(BoundedLines(f.assistant, w.noWork, 3, 700))
    ensures SaysWhatWas(task, f.agent, f.session, "1", work, "- " + w.noFiles, f, w)
  {
    TaskMeans(f, w);
    BulletsSay(f.assistant, w.noWork, 3, 700);
  }

  lemma NowSaid(f: Evidence, w: Wording, run: string, problem: string, failed: string, task: string)
    requires run == "- " + w.runLabel + f.runId + w.statusLabel + f.runStatus + w.runNote
    requires problem == w.triggerLabel + f.kind + w.severityLabel + f.severity + ". " + w.problemNote
    requires failed == Bullets(FailedMethods(f, w))
    ensures SaysWhatNow(run, problem, failed, "- " + w.remaining + Take(task, 800), w.firstAction, task, f, w)
  {
    FailedMean(f, w);
    CutIsFirst(task, 800);
  }

  lemma BodiesSay(f: Evidence, w: Wording, run: string, problem: string)
    requires run == "- " + w.runLabel + f.runId + w.statusLabel + f.runStatus + w.runNote
    requires problem == w.triggerLabel + f.kind + w.severityLabel + f.severity + ". " + w.problemNote
    ensures |Bodies(f, w)| == 11 && Says(Bodies(f, w)[6 := run][7 := problem], f, w)
  {
    var task, work := TaskText(f, w), Bullets(BoundedLines(f.assistant, w.noWork, 3, 700));
    var failed := Bullets(FailedMethods(f, w));
    WasSaid(f, w, task, work);
    NowSaid(f, w, run, problem, failed, task);
    BodiesInOrder(f, w, task, work, failed, run, problem, Bodies(f, w));
  }

  lemma BodiesInOrder(f: Evidence, w: Wording, task: string, work: string, failed: string, run: string,
    problem: string, bodies: seq<string>)
    requires bodies == BodiesWith(f, w, task, work, failed)
    requires SaysWhatWas(task, f.agent, f.session, "1", work, "- " + w.noFiles, f, w)
    requires SaysWhatNow(run, problem, failed, "- " + w.remaining + Take(task, 800), w.firstAction, task, f, w)
    ensures |bodies| == 11 && Says(bodies[6 := run][7 := problem], f, w)
  {
  }

  lemma {:induction false} JoinedChapters(titles: seq<string>, bodies: seq<string>, first: string, i: nat, j: nat)
    requires i <= j <= |titles| && |titles| == |bodies|
    ensures Joined([first] + Sections(titles, bodies, i, j)) == first + Chapters(titles, bodies, i, j)
    decreases j - i
  {
    var blocks := [first] + Sections(titles, bodies, i, j);
    if i < j {
      JoinedChapters(titles, bodies, Section(titles[i], bodies[i]), i + 1, j);
      assert blocks[1..] == [Section(titles[i], bodies[i])] + Sections(titles, bodies, i + 1, j);
      OneChapter(first, titles[i], bodies[i], Chapters(titles, bodies, i + 1, j));
    }
  }

  lemma OneChapter(first: string, title: string, body: string, rest: string)
    ensures first + "\n\n" + (Section(title, body) + rest) == first + ("\n\n## " + title + "\n" + body + rest)
  {
    assert "\n\n" + Marker(title) == "\n\n## " + title + "\n";
  }

  lemma {:induction false} ChaptersSplit(titles: seq<string>, bodies: seq<string>, i: nat, j: nat, k: nat)
    requires i <= j <= k <= |titles| && |titles| == |bodies|
    ensures Chapters(titles, bodies, i, k) == Chapters(titles, bodies, i, j) + Chapters(titles, bodies, j, k)
    decreases j - i
  {
    if i < j { ChaptersSplit(titles, bodies, i + 1, j, k); }
  }

  lemma {:induction false} SameChapters(titles: seq<string>, a: seq<string>, b: seq<string>, i: nat, j: nat)
    requires i <= j <= |titles| && |titles| == |a| == |b| && forall k :: i <= k < j ==> a[k] == b[k]
    ensures Chapters(titles, a, i, j) == Chapters(titles, b, i, j)
    decreases j - i
  {
    if i < j { SameChapters(titles, a, b, i + 1, j); }
  }

  lemma MiddleChapters(titles: seq<string>, bodies: seq<string>)
    requires |titles| == |bodies| == 11
    ensures Chapters(titles, bodies, 0, 11) ==
            Chapters(titles, bodies, 0, 6) + (("\n\n## " + titles[6] + "\n") + bodies[6]
            + (("\n\n## " + titles[7] + "\n") + bodies[7] + Chapters(titles, bodies, 8, 11)))
  {
    ChaptersSplit(titles, bodies, 0, 6, 11);
    assert Chapters(titles, bodies, 6, 11) ==
           ("\n\n## " + titles[6] + "\n") + bodies[6] + Chapters(titles, bodies, 7, 11);
    assert Chapters(titles, bodies, 7, 11) ==
           ("\n\n## " + titles[7] + "\n") + bodies[7] + Chapters(titles, bodies, 8, 11);
  }

  lemma LastChapter(titles: seq<string>, bodies: seq<string>, i: nat)
    requires i < |titles| == |bodies|
    ensures Chapters(titles, bodies, i, i + 1) == ("\n\n## " + titles[i] + "\n") + bodies[i]
  {
    assert Chapters(titles, bodies, i + 1, i + 1) == "";
  }

  lemma OpeningParts(f: Evidence, w: Wording, titles: seq<string>, bodies: seq<string>, head: string)
    requires titles == REQUIRED && bodies == Bodies(f, w) && head == "# RECOVERY_HANDOFF"
    ensures |titles| == |bodies| == 11
    ensures Opening(f, w) ==
            head + (Chapters(titles, bodies, 0, 6) + (("\n\n## " + titles[6] + "\n") + ("- " + w.runLabel)))
  {
    JoinedChapters(titles, bodies, head, 0, 7);
    ChaptersSplit(titles, bodies, 0, 6, 7);
    LastChapter(titles, bodies, 6);
  }

  lemma TurningParts(f: Evidence, w: Wording, titles: seq<string>, bodies: seq<string>)
    requires titles == REQUIRED && bodies == Bodies(f, w)
    ensures |titles| == 11 && Turning(f, w) == w.runNote + (("\n\n## " + titles[7] + "\n") + w.triggerLabel)
  {
    JoinedChapters(titles, bodies, w.runNote, 7, 8);
    LastChapter(titles, bodies, 7);
  }

  lemma ClosingParts(f: Evidence, w: Wording, titles: seq<string>, bodies: seq<string>)
    requires titles == REQUIRED && bodies == Bodies(f, w)
    ensures |titles| == |bodies| == 11
    ensures Closing(f, w) == (". " + w.problemNote) + Chapters(titles, bodies, 8, 11)
  {
    JoinedChapters(titles, bodies, ". " + w.problemNote, 8, 11);
  }

  lemma RestOfFour(gaps: seq<Gap>, tail: string)
    requires |gaps| == 4
    ensures Rest(gaps, tail) ==
            gaps[0].text + (gaps[0].after + (gaps[1].text + (gaps[1].after
            + (gaps[2].text + (gaps[2].after + (gaps[3].text + (gaps[3].after + tail)))))))
  {
    assert Rest(gaps[3..], tail) == gaps[3].text + (gaps[3].after + Rest([], tail)) by { assert gaps[3..][1..] == []; }
    assert Rest(gaps[2..], tail) == gaps[2].text + (gaps[2].after + Rest(gaps[3..], tail)) by {
      assert gaps[2..][1..] == gaps[3..];
    }
    assert Rest(gaps[1..], tail) == gaps[1].text + (gaps[1].after + Rest(gaps[2..], tail)) by {
      assert gaps[1..][1..] == gaps[2..];
    }
  }

  lemma AssembleProblem(note: string, h: string, b: string, k: string, s: string, v: string, d: string, rest: string)
    ensures (note + (h + b)) + (k + (s + (v + (d + rest)))) == note + (h + (b + k + s + v + d) + rest)
  {
  }

  lemma AssembleRun(head: string, front: string, h: string, b: string, id: string, l: string, s: string,
    note: string, rest: string)
    ensures (head + (front + (h + b))) + (id + (l + (s + (note + rest))))
            == head + (front + (h + (b + id + l + s + note) + rest))
  {
  }

  lemma AssembleEnd(front: string, h: string, run: string, g: string, problem: string, last: string, footer: string)
    ensures front + (h + run + (g + problem + (last + footer))) == front + (h + run + (g + problem + last)) + footer
  {
  }

  /** One heading and its text, the next heading and its text, then the last chapters and the footer. */
  lemma Assembled(f: Evidence, w: Wording, gaps: seq<Gap>, head: string, front: string, h: string, note: string,
    g: string, lead: string, last: string, footer: string)
    requires gaps == [Gap(f.runId, w.statusLabel), Gap(f.runStatus, note + (g + lead)),
                      Gap(f.kind, w.severityLabel), Gap(f.severity, (". " + w.problemNote) + last)]
    ensures (head + (front + (h + ("- " + w.runLabel)))) + Rest(gaps, footer) ==
            head + (front
            + (h + ("- " + w.runLabel + f.runId + w.statusLabel + f.runStatus + note)
            + (g + (lead + f.kind + w.severityLabel + f.severity + (". " + w.problemNote)) + last)) + footer)
  {
    var before, problem := "- " + w.runLabel, ". " + w.problemNote;
    RestOfFour(gaps, footer);
    assert (problem + last) + footer == problem + (last + footer);
    AssembleProblem(note, g, lead, f.kind, w.severityLabel, f.severity, problem, last + footer);
    var text := lead + f.kind + w.severityLabel + f.severity + problem;
    AssembleRun(head, front, h, before, f.runId, w.statusLabel, f.runStatus, note, g + text + (last + footer));
    AssembleEnd(front, h, before + f.runId + w.statusLabel + f.runStatus + note, g, text, last, footer);
  }

  ghost predicate FooterSays(text: string, f: Evidence, w: Wording) {
    text == "\n\n## Recovery Metadata\n- source_session_key: " + f.sessionKey + "\n- writer: " + w.writer
            + "\n- created_at: " + f.createdAt + "\n\n## Safety\n- " + w.safety + "\n"
  }

  /** The whole text: a title line, the eleven headings with what stands under each, and the footer. */
  ghost predicate IsForm(text: string, titles: seq<string>, bodies: seq<string>, footer: string)
    requires |titles| == |bodies|
  {
    text == "# RECOVERY_HANDOFF" + Chapters(titles, bodies, 0, |titles|) + footer
  }

  lemma WrittenSays(f: Evidence, w: Wording) returns (bodies: seq<string>, footer: string)
    ensures Says(bodies, f, w) && FooterSays(footer, f, w)
    ensures IsForm(Written(f, w), REQUIRED, bodies, footer)
  {
    var run := "- " + w.runLabel + f.runId + w.statusLabel + f.runStatus + w.runNote;
    var problem := w.triggerLabel + f.kind + w.severityLabel + f.severity + ". " + w.problemNote;
    BodiesSay(f, w, run, problem);
    SameProblem(f, w, problem);
    bodies, footer := Bodies(f, w)[6 := run][7 := problem], Footer(f, w);
    WrittenIsForm(f, w, REQUIRED, Bodies(f, w), run, problem, footer);
  }

  lemma WrittenIsForm(f: Evidence, w: Wording, titles: seq<string>, parts: seq<string>, run: string, problem: string,
    footer: string)
    requires titles == REQUIRED && parts == Bodies(f, w) && |titles| == |parts| == 11 && footer == Footer(f, w)
    requires run == "- " + w.runLabel + f.runId + w.statusLabel + f.runStatus + w.runNote
    requires problem == w.triggerLabel + f.kind + w.severityLabel + f.severity + (". " + w.problemNote)
    ensures IsForm(Written(f, w), titles, parts[6 := run][7 := problem], footer)
  {
    var head, h, g := "# RECOVERY_HANDOFF", "\n\n## " + titles[6] + "\n", "\n\n## " + titles[7] + "\n";
    var front, last := Chapters(titles, parts, 0, 6), Chapters(titles, parts, 8, 11);
    WrittenOfParts(f, w, titles, parts, head, front, h, run, g, problem, last, footer);
    FormOfParts(Written(f, w), titles, parts, head, run, problem, footer);
  }

  /** Two sections of the parts have been replaced by what stands under their headings in the end. */
  lemma FormOfParts(text: string, titles: seq<string>, parts: seq<string>, head: string, run: string, problem: string,
    footer: string)
    requires |titles| == |parts| == 11 && head == "# RECOVERY_HANDOFF"
    requires text == head + (Chapters(titles, parts, 0, 6) + (("\n\n## " + titles[6] + "\n") + run
                     + (("\n\n## " + titles[7] + "\n") + problem + Chapters(titles, parts, 8, 11))) + footer)
    ensures IsForm(text, titles, parts[6 := run][7 := problem], footer)
  {
    var bodies := parts[6 := run][7 := problem];
    SameChapters(titles, parts, bodies, 0, 6);
    SameChapters(titles, parts, bodies, 8, 11);
    MiddleChapters(titles, bodies);
    FormIs(text, titles, bodies, head, Chapters(titles, bodies, 0, 6),
      ("\n\n## " + titles[6] + "\n") + run
      + (("\n\n## " + titles[7] + "\n") + problem + Chapters(titles, bodies, 8, 11)), footer);
  }

  lemma WrittenOfParts(f: Evidence, w: Wording, titles: seq<string>, parts: seq<string>, head: string, front: string,
    h: string, run: string, g: string, problem: string, last: string, footer: string)
    requires titles == REQUIRED && parts == Bodies(f, w) && |titles| == |parts| == 11
    requires head == "# RECOVERY_HANDOFF" && h == "\n\n## " + titles[6] + "\n" && g == "\n\n## " + titles[7] + "\n"
    requires front == Chapters(titles, parts, 0, 6) && last == Chapters(titles, parts, 8, 11) && footer == Footer(f, w)
    requires run == "- " + w.runLabel + f.runId + w.statusLabel + f.runStatus + w.runNote
    requires problem == w.triggerLabel + f.kind + w.severityLabel + f.severity + (". " + w.problemNote)
    ensures Written(f, w) == head + (front + (h + run + (g + problem + last)) + footer)
  {
    OpeningParts(f, w, titles, parts, head);
    TurningParts(f, w, titles, parts);
    ClosingParts(f, w, titles, parts);
    Assembled(f, w, Gaps(f, w), head, front, h, w.runNote, g, w.triggerLabel, last, footer);
  }

  lemma SameProblem(f: Evidence, w: Wording, problem: string)
    requires problem == w.triggerLabel + f.kind + w.severityLabel + f.severity + ". " + w.problemNote
    ensures problem == w.triggerLabel + f.kind + w.severityLabel + f.severity + (". " + w.problemNote)
  {
  }

  lemma FormIs(text: string, titles: seq<string>, bodies: seq<string>, head: string, front: string, rest: string,
    footer: string)
    requires |titles| == |bodies| && head == "# RECOVERY_HANDOFF" && text == head + (front + rest + footer)
    requires Chapters(titles, bodies, 0, |titles|) == front + rest
    ensures IsForm(text, titles, bodies, footer)
  {
    assert head + ((front + rest) + footer) == head + (front + rest) + footer;
  }

  // ----- what is written is accepted --------------------------------------------------------------------

  predicate NoBreak(s: string) { '\n' !in s && '\r' !in s }

  /** Text in capitals holds no small letter. */
  predicate Capitals(s: string) { forall c :: c in s ==> !IsSmall(c) }

  predicate IsSmall(c: char) { 'a' <= c <= 'z' }

  /** Agent and session are one line and begin with a visible character; the trigger has been put in capitals. */
  predicate Usable(f: Evidence) { OneLine(f.agent) && OneLine(f.session) && Capitals(f.kind) }

  predicate PlainWording(w: Wording) {
    && OneLine(w.continueFrom) && OneLine(w.statusLabel) && OneLine(w.runNote) && OneLine(w.triggerLabel)
    && OneLine(w.severityLabel) && OneLine(w.firstAction)
    && NoBreak(w.noWork) && NoBreak(w.noFiles) && NoBreak(w.runLabel) && NoBreak(w.problemNote)
    && NoBreak(w.noCommand) && NoBreak(w.notLoop) && NoBreak(w.remaining)
    && w.runLabel != []
    && EndsApart(w.runLabel) && EndsApart(w.statusLabel) && EndsApart(w.triggerLabel) && EndsApart(w.severityLabel)
  }

  /** The label before a field ends in a character that is in no heading, as an equals sign does. */
  predicate EndsApart(text: string) { ApartFrom(text, REQUIRED) }

  predicate ApartFrom(text: string, titles: seq<string>) {
    forall i :: 0 <= i < |titles| ==> Apart(text, Marker(titles[i]))
  }

  /** A block of lines that can be put under a heading. */
  ghost predicate Block(b: string) { Clean(b) && '\r' !in b }

  lemma TitleIsPlain(i: nat)
    requires i < |REQUIRED|
    ensures NoBreak(REQUIRED[i])
  {
    var t := REQUIRED[i];
    assert forall k :: 0 <= k < |t| ==> t[k] != '\n' && t[k] != '\r' by {
      if i < 4 { FirstTitles(i); } else if i < 8 { MiddleTitles(i); } else { LastTitles(i); }
    }
  }

  lemma FirstTitles(i: nat)
    requires 0 <= i < 4
    ensures forall k :: 0 <= k < |REQUIRED[i]| ==> REQUIRED[i][k] != '\n' && REQUIRED[i][k] != '\r'
  {
  }

  lemma MiddleTitles(i: nat)
    requires 4 <= i < 8
    ensures forall k :: 0 <= k < |REQUIRED[i]| ==> REQUIRED[i][k] != '\n' && REQUIRED[i][k] != '\r'
  {
  }

  lemma LastTitles(i: nat)
    requires 8 <= i < 11
    ensures forall k :: 0 <= k < |REQUIRED[i]| ==> REQUIRED[i][k] != '\n' && REQUIRED[i][k] != '\r'
  {
  }

  lemma SectionIsBlock(title: string, body: string)
    requires Block(body) && NoBreak(title)
    ensures Block(Section(title, body))
    ensures Occurs(Section(title, body), Marker(title))
  {
    assert OneLine("## " + title);
    CleanJoin("## " + title, "\n", body);
    assert Section(title, body) == "## " + title + "\n" + body;
    assert At(Section(title, body), Marker(title), 0);
  }

  lemma {:induction false} BulletsAreBlock(values: seq<string>)
    requires values != [] && forall i :: 0 <= i < |values| ==> NoBreak(values[i])
    ensures Block(Bullets(values))
  {
    OneLineIsClean("- " + values[0]);
    if |values| > 1 {
      BulletsAreBlock(values[1..]);
      CleanJoin("- " + values[0], "\n", Bullets(values[1..]));
    }
  }

  lemma {:induction false} JoinedIsBlock(blocks: seq<string>)
    requires blocks != [] && forall i :: 0 <= i < |blocks| ==> Block(blocks[i])
    ensures Block(Joined(blocks))
  {
    if |blocks| > 1 {
      JoinedIsBlock(blocks[1..]);
      CleanJoin(blocks[0], "\n\n", Joined(blocks[1..]));
    }
  }

  lemma {:induction false} JoinedMentions(blocks: seq<string>, k: nat, pattern: string)
    requires k < |blocks| && Occurs(blocks[k], pattern)
    ensures Occurs(Joined(blocks), pattern)
  {
    if |blocks| == 1 {
    } else if k == 0 {
      OccursWithin([], blocks[0], "\n\n" + Joined(blocks[1..]), pattern);
      assert [] + blocks[0] + ("\n\n" + Joined(blocks[1..])) == Joined(blocks);
    } else {
      JoinedMentions(blocks[1..], k - 1, pattern);
      OccursWithin(blocks[0] + "\n\n", Joined(blocks[1..]), [], pattern);
      assert blocks[0] + "\n\n" + Joined(blocks[1..]) + [] == Joined(blocks);
    }
  }

  lemma CutHasNoBreak(s: string, width: nat)
    ensures NoBreak(Take(Collapsed(s), width))
  {
    CollapsedIsOneLine(s);
    var cut := Take(Collapsed(s), width);
    forall c | c in cut ensures c == ' ' || !IsSpace(c) { assert c in Collapsed(s); }
  }

  lemma {:induction false} BoundedHaveNoBreak(values: seq<string>, limit: nat, width: nat, i: nat)
    requires i < |Bounded(values, limit, width)|
    ensures NoBreak(Bounded(values, limit, width)[i])
    decreases |values|
  {
    if Collapsed(values[0]) == [] {
      BoundedHaveNoBreak(values[1..], limit, width, i);
    } else if i == 0 {
      CutHasNoBreak(values[0], width);
    } else {
      BoundedHaveNoBreak(values[1..], limit - 1, width, i - 1);
    }
  }

  lemma BoundedLinesAreBlock(values: seq<string>, fallback: string, limit: nat, width: nat)
    requires NoBreak(fallback)
    ensures Block(Bullets(BoundedLines(values, fallback, limit, width)))
  {
    var lines := BoundedLines(values, fallback, limit, width);
    forall i | 0 <= i < |lines| ensures NoBreak(lines[i]) {
      if Bounded(values, limit, width) != [] { BoundedHaveNoBreak(values, limit, width, i); }
    }
    BulletsAreBlock(lines);
  }

  lemma TaskIsOneLine(f: Evidence, w: Wording)
    requires Usable(f) && PlainWording(w)
    ensures OneLine(TaskText(f, w))
  {
    CollapsedIsOneLine(Take(f.user, 1200));
    CutHasNoBreak(Take(f.user, 1200), 1200);
  }

  lemma BodyIsLine(f: Evidence, w: Wording, i: nat)
    requires Usable(f) && PlainWording(w) && i < |Bodies(f, w)| && i != 4 && i != 8
    ensures OneLine(Bodies(f, w)[i])
  {
    TaskIsOneLine(f, w);
  }

  lemma ListIsBlock(f: Evidence, w: Wording, i: nat)
    requires PlainWording(w) && (i == 4 || i == 8)
    ensures Block(Bodies(f, w)[i])
  {
    if i == 4 {
      BoundedLinesAreBlock(f.assistant, w.noWork, 3, 700);
    } else if f.kind == "LOOP" {
      BoundedLinesAreBlock(f.commands, w.noCommand, 4, 500);
    } else {
      BulletsAreBlock([w.notLoop]);
    }
  }

  lemma BodyIsBlock(f: Evidence, w: Wording, i: nat)
    requires Usable(f) && PlainWording(w) && i < |Bodies(f, w)|
    ensures Block(Bodies(f, w)[i])
  {
    if i == 4 || i == 8 {
      ListIsBlock(f, w, i);
    } else {
      BodyIsLine(f, w, i);
      OneLineIsClean(Bodies(f, w)[i]);
    }
  }

  lemma SectionsAreBlocks(f: Evidence, w: Wording, first: string, i: nat, j: nat)
    requires Usable(f) && PlainWording(w) && Block(first) && i <= j <= |REQUIRED|
    ensures var text := Joined([first] + Sections(REQUIRED, Bodies(f, w), i, j));
            Block(text) && forall k :: i <= k < j ==> Occurs(text, Marker(REQUIRED[k]))
  {
    forall k | i <= k < j ensures NoBreak(REQUIRED[k]) && Block(Bodies(f, w)[k]) {
      TitleIsPlain(k);
      BodyIsBlock(f, w, k);
    }
    BlocksOfSections(REQUIRED, Bodies(f, w), first, i, j);
  }

  lemma BlocksOfSections(titles: seq<string>, bodies: seq<string>, first: string, i: nat, j: nat)
    requires Block(first) && i <= j <= |titles| && |titles| == |bodies|
    requires forall k :: i <= k < j ==> NoBreak(titles[k]) && Block(bodies[k])
    ensures var text := Joined([first] + Sections(titles, bodies, i, j));
            Block(text) && forall k :: i <= k < j ==> Occurs(text, Marker(titles[k]))
  {
    var blocks := [first] + Sections(titles, bodies, i, j);
    forall k | i <= k < j ensures Block(blocks[1 + k - i]) && Occurs(blocks[1 + k - i], Marker(titles[k])) {
      SectionIsBlock(titles[k], bodies[k]);
    }
    assert forall m :: 0 < m < |blocks| ==> blocks[m] == blocks[1 + (m - 1 + i) - i];
    JoinedIsBlock(blocks);
    forall k | i <= k < j ensures Occurs(Joined(blocks), Marker(titles[k])) {
      JoinedMentions(blocks, 1 + k - i, Marker(titles[k]));
    }
  }

  lemma ReadBackEnd(middle: string, back: string, tail: string)
    requires Block(back)
    ensures ReadBack(middle + (back + tail)) == ReadBack(middle) + (back + ReadBack(tail))
  {
    ReadBackPlain(back, tail);
    ReadBackSplits(middle, back + tail);
  }

  /** The gaps as they are read back. */
  function ReadGaps(gaps: seq<Gap>): seq<Gap> {
    seq(|gaps|, g requires 0 <= g < |gaps| => gaps[g].(text := ReadBack(gaps[g].text)))
  }

  /** Reading the file back changes line endings only where a field brought some in. */
  lemma {:induction false} RestReadBack(gaps: seq<Gap>, tail: string)
    requires forall g :: 0 <= g < |gaps| ==> Block(gaps[g].after)
    ensures ReadBack(Rest(gaps, tail)) == Rest(ReadGaps(gaps), ReadBack(tail))
    decreases |gaps|
  {
    if gaps != [] {
      RestReadBack(gaps[1..], tail);
      ReadBackEnd(gaps[0].text, gaps[0].after, Rest(gaps[1..], tail));
      assert ReadGaps(gaps)[1..] == ReadGaps(gaps[1..]);
    }
  }

  lemma Regroup(a: string, b: string, c: string, d: string)
    ensures a + (b + (c + d)) == a + b + c + d
  {
  }

  lemma {:induction false} JoinedEnds(blocks: seq<string>)
    requires blocks != [] && blocks[|blocks| - 1] != []
    ensures Joined(blocks) != []
    ensures var last := blocks[|blocks| - 1]; Joined(blocks)[|Joined(blocks)| - 1] == last[|last| - 1]
  {
    if |blocks| > 1 { JoinedEnds(blocks[1..]); }
  }

  lemma LikeApart(text: string, ending: string, titles: seq<string>)
    requires ApartFrom(ending, titles) && ending != [] && text != [] && text[|text| - 1] == ending[|ending| - 1]
    ensures ApartFrom(text, titles)
  {
    forall i | 0 <= i < |titles| ensures Apart(text, Marker(titles[i])) {
      assert Apart(ending, Marker(titles[i]));
    }
  }

  lemma JoinedLast(blocks: seq<string>, before: string, ending: string)
    requires blocks != [] && blocks[|blocks| - 1] == before + ending && ending != []
    ensures Joined(blocks) != [] && Joined(blocks)[|Joined(blocks)| - 1] == ending[|ending| - 1]
  {
    JoinedEnds(blocks);
  }

  /** A part that ends with a label ends apart from all headings. */
  lemma JoinedEndsApart(blocks: seq<string>, before: string, ending: string, titles: seq<string>)
    requires blocks != [] && blocks[|blocks| - 1] == before + ending && ApartFrom(ending, titles) && ending != []
    ensures ApartFrom(Joined(blocks), titles)
  {
    JoinedLast(blocks, before, ending);
    LikeApart(Joined(blocks), ending, titles);
  }

  lemma OpeningIsFixed(f: Evidence, w: Wording)
    requires Usable(f) && PlainWording(w)
    ensures Block(Opening(f, w)) && EndsApart(Opening(f, w))
    ensures forall i :: 0 <= i < 7 ==> Occurs(Opening(f, w), Marker(REQUIRED[i]))
  {
    OneLineIsClean("# RECOVERY_HANDOFF");
    SectionsAreBlocks(f, w, "# RECOVERY_HANDOFF", 0, 7);
    var blocks := ["# RECOVERY_HANDOFF"] + Sections(REQUIRED, Bodies(f, w), 0, 7);
    assert blocks[7] == (Marker(REQUIRED[6]) + "- ") + w.runLabel;
    JoinedEndsApart(blocks, Marker(REQUIRED[6]) + "- ", w.runLabel, REQUIRED);
  }

  lemma TurningIsFixed(f: Evidence, w: Wording)
    requires Usable(f) && PlainWording(w)
    ensures Block(Turning(f, w)) && EndsApart(Turning(f, w)) && Occurs(Turning(f, w), Marker(REQUIRED[7]))
  {
    OneLineIsClean(w.runNote);
    SectionsAreBlocks(f, w, w.runNote, 7, 8);
    TurningEndsApart(REQUIRED, Bodies(f, w), w.runNote, w.triggerLabel);
  }

  lemma TurningEndsApart(titles: seq<string>, bodies: seq<string>, note: string, ending: string)
    requires |bodies| == |titles| > 7 && bodies[7] == ending && ending != [] && ApartFrom(ending, titles)
    ensures ApartFrom(Joined([note] + Sections(titles, bodies, 7, 8)), titles)
  {
    var blocks := [note] + Sections(titles, bodies, 7, 8);
    assert blocks[1] == Marker(titles[7]) + ending;
    JoinedEndsApart(blocks, Marker(titles[7]), ending, titles);
  }

  lemma ClosingIsFixed(f: Evidence, w: Wording)
    requires Usable(f) && PlainWording(w)
    ensures Block(Closing(f, w))
    ensures forall i :: 8 <= i < 11 ==> Occurs(Closing(f, w), Marker(REQUIRED[i]))
  {
    OneLineIsClean(". " + w.problemNote);
    SectionsAreBlocks(f, w, ". " + w.problemNote, 8, 11);
  }

  /** Four gaps, of which the second is followed by the eighth heading and the last by the three last ones. */
  ghost predicate FixedAround(front: string, gaps: seq<Gap>) {
    && Block(front) && EndsApart(front) && |gaps| == 4
    && (forall g :: 0 <= g < 4 ==> Block(gaps[g].after)) && (forall g :: 0 <= g < 3 ==> EndsApart(gaps[g].after))
    && (forall i :: 0 <= i < 7 ==> Occurs(front, Marker(REQUIRED[i])))
    && Occurs(gaps[1].after, Marker(REQUIRED[7]))
    && forall i :: 8 <= i < 11 ==> Occurs(gaps[3].after, Marker(REQUIRED[i]))
  }

  lemma FormIsFixed(f: Evidence, w: Wording, gaps: seq<Gap>)
    requires Usable(f) && PlainWording(w) && gaps == Gaps(f, w)
    ensures FixedAround(Opening(f, w), gaps)
  {
    OpeningIsFixed(f, w);
    TurningIsFixed(f, w);
    ClosingIsFixed(f, w);
    OneLineIsClean(w.statusLabel);
    OneLineIsClean(w.severityLabel);
    forall g | 0 <= g < 4 ensures Block(gaps[g].after) && (g < 3 ==> EndsApart(gaps[g].after)) {}
  }

  lemma FixedFrames(front: string, gaps: seq<Gap>, read: seq<Gap>, required: seq<string>)
    requires FixedAround(front, gaps) && read == ReadGaps(gaps) && required == REQUIRED
    ensures Frames(front, read, required)
  {
    assert forall g :: 0 <= g < 4 ==> read[g].after == gaps[g].after;
    forall i | 0 <= i < |required|
      ensures Apart(front, Marker(required[i])) && Framing(read, Marker(required[i]))
      ensures Occurs(front, Marker(required[i])) || MentionedAfter(read, Marker(required[i]))
    {
      if i == 7 { assert Occurs(read[1].after, Marker(required[i])); }
      if i > 7 { assert Occurs(read[3].after, Marker(required[i])); }
    }
  }

  lemma AcceptedForm(front: string, gaps: seq<Gap>, tail: string, required: seq<string>)
    requires FixedAround(front, gaps) && required == REQUIRED
    ensures Accepted(ReadBack(front + Rest(gaps, tail)), required) <==>
            forall i :: 0 <= i < |required| ==> Unspoiled(front, ReadGaps(gaps), Marker(required[i]))
  {
    ReadBackPlain(front, Rest(gaps, tail));
    RestReadBack(gaps, tail);
    FixedFrames(front, gaps, ReadGaps(gaps), required);
    AcceptedIff(front, ReadGaps(gaps), ReadBack(tail), required);
  }

  /** Field `g` brings the heading of section `i`, not met before it, with nothing visible up to an empty line in it. */
  predicate Spoils(f: Evidence, w: Wording, g: nat, i: nat)
    requires g < 4 && i < |REQUIRED|
  {
    SpoiledBy(BeforeGap(Opening(f, w), ReadGaps(Gaps(f, w)), g), ReadBack(Gaps(f, w)[g].text), REQUIRED[i])
  }

  lemma {:induction false} ReadBackCapitals(s: string)
    requires Capitals(s)
    ensures Capitals(ReadBack(s))
    decreases |s|
  {
    if s != [] {
      var rest := if s[0] == '\r' && |s| > 1 && s[1] == '\n' then s[2..] else s[1..];
      ReadBackCapitals(rest);
      assert !IsSmall(s[0]);
    }
  }

  /** Every title goes on in small letters. */
  lemma TitleHasSmall(i: nat)
    requires i < |REQUIRED|
    ensures |REQUIRED[i]| > 1 && IsSmall(REQUIRED[i][1])
  {
  }

  lemma CapitalsHoldNoHeading(text: string, section: string)
    requires Capitals(text) && |section| > 1 && IsSmall(section[1])
    ensures Find(text, Marker(section), 0).None?
  {
    assert Marker(section)[4] == section[1];
    NotThere(text, Marker(section), 4);
  }

  /** The trigger never spoils anything. */
  lemma TriggerSpoilsNothing(f: Evidence, w: Wording, g: nat, i: nat)
    requires Capitals(f.kind) && g == 2 && i < |REQUIRED|
    ensures !Spoils(f, w, g, i)
  {
    ReadBackCapitals(f.kind);
    TitleHasSmall(i);
    CapitalsHoldNoHeading(ReadBack(Gaps(f, w)[g].text), REQUIRED[i]);
  }

  /** The gaps that can bring a heading: the run id, the run's status and the severity. */
  predicate Foreign(g: nat) { g == 0 || g == 1 || g == 3 }

  /**
   * The handoff is accepted for any trigger, user, command and assistant text, exactly unless the run id, the run's
   * status or the severity brings the heading of a section, not met before it, with nothing but white space up to an
   * empty line under it.
   */
  lemma HandoffAcceptedIff(f: Evidence, w: Wording)
    requires Usable(f) && PlainWording(w)
    ensures Accepted(ReadBack(Written(f, w)), REQUIRED) <==>
            forall g: nat, i: nat :: Foreign(g) && i < |REQUIRED| ==> !Spoils(f, w, g, i)
  {
    AcceptedUnlessSpoiled(f, w);
    forall i | 0 <= i < |REQUIRED| ensures !Spoils(f, w, 2, i) { TriggerSpoilsNothing(f, w, 2, i); }
  }

  lemma AcceptedUnlessSpoiled(f: Evidence, w: Wording)
    requires Usable(f) && PlainWording(w)
    ensures Accepted(ReadBack(Written(f, w)), REQUIRED) <==>
            forall g, i :: 0 <= g < 4 && 0 <= i < |REQUIRED| ==> !Spoils(f, w, g, i)
  {
    var gaps := Gaps(f, w);
    FormIsFixed(f, w, gaps);
    AcceptedForm(Opening(f, w), gaps, Footer(f, w), REQUIRED);
    SpoilsIsSpoiled(f, w, gaps, ReadGaps(gaps), REQUIRED);
  }

  lemma SpoilsIsSpoiled(f: Evidence, w: Wording, gaps: seq<Gap>, read: seq<Gap>, required: seq<string>)
    requires gaps == Gaps(f, w) && read == ReadGaps(gaps) && required == REQUIRED
    ensures (forall i :: 0 <= i < |required| ==> Unspoiled(Opening(f, w), read, Marker(required[i]))) <==>
            forall g, i :: 0 <= g < 4 && 0 <= i < |required| ==> !Spoils(f, w, g, i)
  {
    forall g, i | 0 <= g < 4 && 0 <= i < |required|
      ensures Spoils(f, w, g, i) <==> SpoiledUnder(BeforeGap(Opening(f, w), read, g), read[g].text, Marker(required[i]))
    {
    }
    if forall g, i :: 0 <= g < 4 && 0 <= i < |required| ==> !Spoils(f, w, g, i) {
      forall i | 0 <= i < |required| ensures Unspoiled(Opening(f, w), read, Marker(required[i])) {
        forall g | 0 <= g < |read|
          ensures !SpoiledUnder(BeforeGap(Opening(f, w), read, g), read[g].text, Marker(required[i]))
        {
          assert !Spoils(f, w, g, i);
        }
      }
    }
  }

  /** With these three fields free of line breaks it is always accepted, whatever looks like a heading in them. */
  lemma HandoffAccepted(f: Evidence, w: Wording)
    requires Usable(f) && PlainWording(w)
    requires NoBreak(f.runId) && NoBreak(f.runStatus) && NoBreak(f.severity)
    ensures Accepted(ReadBack(Written(f, w)), REQUIRED)
  {
    HandoffAcceptedIff(f, w);
    forall g: nat, i: nat | Foreign(g) && i < |REQUIRED| ensures !Spoils(f, w, g, i) {
      GapsAreFields(f, w);
      LineGapSpoilsNothing(f, w, g, i);
    }
  }

  lemma GapsAreFields(f: Evidence, w: Wording)
    ensures Gaps(f, w)[0].text == f.runId && Gaps(f, w)[1].text == f.runStatus && Gaps(f, w)[3].text == f.severity
  {
  }

  lemma LineGapSpoilsNothing(f: Evidence, w: Wording, g: nat, i: nat)
    requires g < 4 && i < |REQUIRED| && NoBreak(Gaps(f, w)[g].text)
    ensures !Spoils(f, w, g, i)
  {
    LineSpoilsNothing(Gaps(f, w)[g].text, REQUIRED[i]);
  }

  lemma LineSpoilsNothing(line: string, section: string)
    requires NoBreak(line)
    ensures Find(ReadBack(line), Marker(section), 0).None?
  {
    ReadBackPlain(line, []);
    assert line + [] == line;
    var first := Find(line, Marker(section), 0);
    if first.Some? { MarkerEndsLine(line, section, first.value); }
  }

  // ----- a field that spoils the handoff --------------------------------------------------------------------

  function Spoiler(i: nat): string
    requires i < |REQUIRED|
  {
    Marker(REQUIRED[i]) + "\n\n"
  }

  /** Whatever the evidence, each of the three fields can spoil any section whose heading is not met before it. */
  lemma FieldCanSpoil(f: Evidence, w: Wording, g: nat, i: nat)
    requires Usable(f) && PlainWording(w) && Foreign(g) && i < |REQUIRED| && Gaps(f, w)[g].text == Spoiler(i)
    requires Find(BeforeGap(Opening(f, w), ReadGaps(Gaps(f, w)), g), Marker(REQUIRED[i]), 0).None?
    ensures !Accepted(ReadBack(Written(f, w)), REQUIRED)
  {
    HandoffAcceptedIff(f, w);
    TitleIsPlain(i);
    SpoilerSpoils(BeforeGap(Opening(f, w), ReadGaps(Gaps(f, w)), g), Gaps(f, w)[g].text, REQUIRED[i]);
    assert Spoils(f, w, g, i);
  }

  lemma SpoilerSpoils(front: string, text: string, section: string)
    requires NoBreak(section) && text == Marker(section) + "\n\n" && Find(front, Marker(section), 0).None?
    ensures SpoiledBy(front, ReadBack(text), section)
  {
    var m := Marker(section);
    ReadBackPlain(text, []);
    assert text + [] == text;
    assert text[0..0 + |m|] == m;
    assert At(text, m, 0);
    var rest := text[|m|..];
    assert rest == "\n\n" && At(rest, "\n\n", 0);
  }

  lemma NotThere(text: string, m: string, k: nat)
    requires k < |m| && m[k] !in text
    ensures Find(text, m, 0).None?
  {
    var first := Find(text, m, 0);
    if first.Some? { AtChar(text, m, first.value, k); }
  }

  /** For instance the severity that of the first action, when what stands before it holds no `x`. */
  lemma FirstActionCanBeSpoiled(f: Evidence, w: Wording)
    requires Usable(f) && PlainWording(w) && f.severity == Spoiler(10)
    requires 'x' !in BeforeGap(Opening(f, w), ReadGaps(Gaps(f, w)), 3)
    ensures !Accepted(ReadBack(Written(f, w)), REQUIRED)
  {
    NoSuchHeading(BeforeGap(Opening(f, w), ReadGaps(Gaps(f, w)), 3), REQUIRED[10]);
    SpoiledBySeverity(f, w, 3, 10);
  }

  lemma NoSuchHeading(text: string, section: string)
    requires section == "Next Agent First Action" && 'x' !in text
    ensures Find(text, Marker(section), 0).None?
  {
    assert Marker(section)[5] == section[2] == 'x';
    NotThere(text, Marker(section), 5);
  }

  lemma SpoiledBySeverity(f: Evidence, w: Wording, g: nat, i: nat)
    requires Usable(f) && PlainWording(w) && g == 3 && i < |REQUIRED| && f.severity == Spoiler(i)
    requires Find(BeforeGap(Opening(f, w), ReadGaps(Gaps(f, w)), g), Marker(REQUIRED[i]), 0).None?
    ensures !Accepted(ReadBack(Written(f, w)), REQUIRED)
  {
    FieldCanSpoil(f, w, g, i);
  }
}
