/** What a prompt window shows for a session: a summary line and details that never repeat it. */
module PromptModel {
  import opened PromptText

  function IndexOfNewline(s: string): (k: int)
    ensures -1 <= k < |s|
    ensures k == -1 ==> forall j :: 0 <= j < |s| ==> s[j] != '\n'
    ensures k >= 0 ==> s[k] == '\n' && forall j :: 0 <= j < k ==> s[j] != '\n'
  {
    if s == [] then -1
    else if IndexOfNewline(s[..|s| - 1]) >= 0 then IndexOfNewline(s[..|s| - 1])
    else if s[|s| - 1] == '\n' then |s| - 1
    else -1
  }

  // ----- Keeping summary and details apart -----

  datatype Shown = Shown(summary: string, details: string)

  /** Details without a summary: their first line becomes the summary. */
  function Promoted(s: Shown): Shown {
    if s.summary == [] && s.details != [] then
      var cleaned := DetailText(s.details);
      var newline := IndexOfNewline(cleaned);
      if newline == -1 then Shown(cleaned, []) else Shown(Trimmed(cleaned[..newline]), Trimmed(cleaned[newline + 1..]))
    else s
  }

  /** A first detail line that repeats the summary goes; so do details that repeat it altogether. */
  function Deduplicated(s: Shown): Shown {
    if s.summary != [] && s.details != [] then
      var lines := Split(DetailText(s.details), IsNewline);
      var details := if TextEquivalent(lines[0], s.summary) then Trimmed(Join(lines[1..], '\n')) else s.details;
      s.(details := if TextEquivalent(s.summary, details) then [] else details)
    else s
  }

  /** Information that is not shown yet is added. */
  function Informed(s: Shown, info: string): Shown {
    if info == [] || TextEquivalent(info, s.summary) || TextEquivalent(info, s.details) then s
    else if s.details == [] then s.(details := info)
    else s.(details := Join(Kept([s.details, info]), '\n'))
  }

  lemma BlankTextsAreApart(summary: string)
    ensures !TextEquivalent(summary, []) && !TextEquivalent([], summary)
  {
    NothingToCompare();
  }

  lemma NothingToCompare()
    ensures CompareText([]) == []
  {
    CompareTextIsWords([]);
    assert Folded([]) == [];
    WordsOfNothing();
  }

  lemma DeduplicatedIsApart(s: Shown)
    ensures !TextEquivalent(Deduplicated(s).summary, Deduplicated(s).details)
    ensures !Overlap(Deduplicated(s).summary, Deduplicated(s).details)
  {
    hide TextEquivalent, Overlap;
    TextEquivalentIsOverlap(Deduplicated(s).summary, Deduplicated(s).details);
    BlankTextsAreApart(s.summary);
    BlankTextsAreApart(s.details);
  }

  /** New information that repeats neither summary nor details is appended on a line of its own. */
  lemma InfoIsAppended(s: Shown, info: string)
    requires info != [] && !Overlap(info, s.summary) && !Overlap(info, s.details) && s.details != []
    ensures var d, i := Trimmed(s.details), Trimmed(info);
            Informed(s, info).details == if d == [] then i else if i == [] then d else d + ['\n'] + i
  {
    hide TextEquivalent, CompareText, Trimmed, Join, Overlap;
    TextEquivalentIsOverlap(info, s.summary);
    TextEquivalentIsOverlap(info, s.details);
    var d, i := Trimmed(s.details), Trimmed(info);
    var both := [s.details, info];
    TrimmedAlike(s.details, info);
    TextEquivalentIsSymmetric(info, s.details);
    KeptOne(s.details);
    assert both[..1] == [s.details];
    var before := Kept([s.details]);
    assert before == [d] ==> (Repeats(before, i) <==> TextEquivalent(d, i));
    assert before == [] ==> !Repeats(before, i);
    assert Kept(both) == if i == [] then before else before + [i];
    assert [] + [i] == [i];
    JoinOfFew(d, i);
  }

  lemma JoinOfFew(d: string, i: string)
    ensures Join([], '\n') == [] && Join([d], '\n') == d && Join([i], '\n') == i
    ensures Join([d] + [i], '\n') == d + ['\n'] + i
  {
    assert ([d] + [i])[..1] == [d];
  }

  lemma KeptOne(v: string)
    ensures Kept([v]) == if Trimmed(v) == [] then [] else [Trimmed(v)]
  {
    assert [v][..0] == [] && !Repeats([], Trimmed(v));
  }

  lemma TrimmedAlike(a: string, b: string)
    ensures TextEquivalent(Trimmed(a), Trimmed(b)) == TextEquivalent(a, b)
    ensures TextEquivalent(Trimmed(a), b) == TextEquivalent(a, b)
  {
    hide CompareText, Trimmed;
    TrimmedComparesAlike(a);
    TrimmedComparesAlike(b);
  }

  /** Two texts of which neither begins the other stay so when the second goes on. */
  lemma ApartWhenExtended(a: string, b: string, more: string)
    requires a != [] && b != [] && !StartsWith(a, b) && !StartsWith(b, a)
    ensures !StartsWith(a, b + more) && !StartsWith(b + more, a)
  {
  }

  lemma InformedIsApart(s: Shown, info: string)
    requires !TextEquivalent(s.summary, s.details)
    ensures !TextEquivalent(Informed(s, info).summary, Informed(s, info).details)
  {
    hide CompareText, Trimmed, Kept, Join, Overlap, TextEquivalent;
    TextEquivalentIsSymmetric(info, s.summary);
    if info != [] && !TextEquivalent(info, s.summary) && !TextEquivalent(info, s.details) && s.details != [] {
      TextEquivalentIsOverlap(info, s.summary);
      TextEquivalentIsOverlap(info, s.details);
      InfoIsAppended(s, info);
      TextEquivalentIsSymmetric(s.details, s.summary);
      AddedIsApart(s.summary, s.details, info);
    }
  }

  lemma AddedIsApart(summary: string, details: string, info: string)
    requires !TextEquivalent(summary, details) && !TextEquivalent(summary, info)
    ensures var d, i := Trimmed(details), Trimmed(info);
            !TextEquivalent(summary, if d == [] then i else if i == [] then d else d + ['\n'] + i)
  {
    hide CompareText, Trimmed;
    var d, i := Trimmed(details), Trimmed(info);
    TrimmedComparesAlike(details);
    TrimmedComparesAlike(info);
    CompareTextOfLines(d, i);
    var a, b := CompareText(summary), CompareText(d);
    if a != [] && b != [] {
      ApartWhenExtended(a, b, [' '] + CompareText(i));
      assert b + [' '] + CompareText(i) == b + ([' '] + CompareText(i));
    }
  }

  function Reconciled(s: Shown, info: string): Shown {
    Informed(Deduplicated(Promoted(s)), info)
  }

  /** Whatever was drafted: of the summary and the reconciled details, if both have words, neither
      begins the other. */
  lemma SummaryIsNotRepeated(s: Shown, info: string)
    ensures !Overlap(Reconciled(s, info).summary, Reconciled(s, info).details)
  {
    hide TextEquivalent, Overlap;
    TextEquivalentIsOverlap(Reconciled(s, info).summary, Reconciled(s, info).details);
    DeduplicatedIsApart(Promoted(s));
    InformedIsApart(Deduplicated(Promoted(s)), info);
  }

  // ----- What is kept -----

  /** The details that are left beside a summary. */
  function Remaining(summary: string, details: string): string {
    var lines := Split(DetailText(details), IsNewline);
    var rest := if Overlap(lines[0], summary) then Trimmed(Join(lines[1..], '\n')) else details;
    if Overlap(rest, summary) then [] else rest
  }

  /** Nothing else is lost: a drafted summary stays; details of which neither the first line nor the whole
      overlaps it stay as they were; and information that overlaps neither is added after them. */
  lemma WhatIsKept(s: Shown, info: string)
    requires s.summary != []
    ensures Reconciled(s, info).summary == s.summary
    ensures var details, kept := s.details, Remaining(s.summary, s.details);
            && (!Overlap(Split(DetailText(details), IsNewline)[0], s.summary) && !Overlap(details, s.summary) ==>
                  kept == details)
            && Reconciled(s, info).details ==
               if info == [] || Overlap(info, s.summary) || Overlap(info, kept) then kept
               else if kept == [] then info
               else if Trimmed(kept) == [] then Trimmed(info)
               else if Trimmed(info) == [] then Trimmed(kept)
               else Trimmed(kept) + ['\n'] + Trimmed(info)
  {
    hide TextEquivalent, Overlap, DetailText, Trimmed, Join, Kept;
    var kept := Remaining(s.summary, s.details);
    RemainingIsDeduplicated(s);
    TextEquivalentIsOverlap(info, s.summary);
    TextEquivalentIsOverlap(info, kept);
    if info != [] && !Overlap(info, s.summary) && !Overlap(info, kept) && kept != [] {
      InfoIsAppended(Shown(s.summary, kept), info);
    }
  }

  lemma RemainingIsDeduplicated(s: Shown)
    requires s.summary != []
    ensures Deduplicated(s) == Shown(s.summary, Remaining(s.summary, s.details))
  {
    hide TextEquivalent, Overlap, Trimmed;
    var lines := Split(DetailText(s.details), IsNewline);
    var rest := if Overlap(lines[0], s.summary) then Trimmed(Join(lines[1..], '\n')) else s.details;
    TextEquivalentIsOverlap(lines[0], s.summary);
    TextEquivalentIsOverlap(s.summary, rest);
    OverlapIsSymmetric(s.summary, rest);
    if s.details == [] {
      NothingOverlaps(s.summary);
      BlankText();
    }
  }

  lemma OverlapIsSymmetric(a: string, b: string)
    ensures Overlap(a, b) == Overlap(b, a)
  {
    hide Words, Join;
  }

  lemma NothingOverlaps(a: string)
    ensures !Overlap([], a)
  {
    hide Words, Join;
    assert Folded([]) == [];
    WordsOfNothing();
  }

  /** Without a drafted summary the first line of the details becomes it: every word stays, in order. */
  lemma PromotedKeepsWords(details: string)
    requires details != []
    ensures var p := Promoted(Shown([], details));
            Words(p.summary) + Words(p.details) == Words(details) && '\n' !in p.summary
  {
    hide Words, Trimmed, DetailText;
    var cleaned := DetailText(details);
    var newline := IndexOfNewline(cleaned);
    DetailTextKeepsWords(details);
    if newline == -1 {
      WordsOfNothing();
      assert Words(cleaned) + [] == Words(cleaned);
    } else {
      var a, b := cleaned[..newline], cleaned[newline + 1..];
      assert cleaned == a + [cleaned[newline]] + b;
      WordsAround(a, '\n', b);
      TrimmedKeepsWords(a);
      TrimmedKeepsWords(b);
    }
  }

  /** The end of the builder: from the drafted summary and details to what is shown. */
  method Reconcile(draft: Shown, info: string) returns (s: Shown)
    ensures s == Reconciled(draft, info)
    ensures !Overlap(s.summary, s.details)
  {
    hide TextEquivalent, Overlap, DetailText, Trimmed, Join, Kept;
    SummaryIsNotRepeated(draft, info);
    var summary, details := draft.summary, draft.details;
    if summary == "" && details != "" {
      var normalized := NormalizeDetailText(details);
      var newline := IndexOfNewline(normalized);
      if newline == -1 {
        summary := normalized;
        details := "";
      } else {
        summary := Trimmed(normalized[..newline]);
        details := Trimmed(normalized[newline + 1..]);
      }
    }
    if summary != "" && details != "" {
      var normalized := NormalizeDetailText(details);
      var detailLines := Split(normalized, IsNewline);
      if TextEquivalent(detailLines[0], summary) {
        detailLines := detailLines[1..];
        details := Trimmed(Join(detailLines, '\n'));
      }
      if TextEquivalent(summary, details) {
        details := "";
      }
    }
    if info != "" && !TextEquivalent(info, summary) && !TextEquivalent(info, details) {
      if details == "" {
        details := info;
      } else {
        details := UniqueJoined([details, info]);
      }
    }
    s := Shown(summary, details);
  }
}
