/**
 * The writer agent's outline (`wordsmith/agent.py`): the section records,
 * the fixed three- or four-part plans scaled to the word count, the
 * terminology focus added to each deliverable, and the balancing of the
 * section budgets toward the target word count.
 */
module Outline {
  import opened Strings
  import opened Numerals

  /** `OutlineSection`: one planned section and its word budget. */
  datatype OutlineSection = OutlineSection(number: string, title: string, role: string, budget: int,
                                           deliverable: string)

  /** `format_line`: the line the outline file holds for a section. */
  function FormatLine(s: OutlineSection): string {
    s.number + ". " + s.title + " (Rolle: " + s.role + ", Budget: " + IntToString(s.budget) +
    " Wörter) -> " + s.deliverable
  }

  function FormatLines(sections: seq<OutlineSection>): (r: seq<string>)
    ensures |r| == |sections|
  {
    seq(|sections|, i requires 0 <= i < |sections| => FormatLine(sections[i]))
  }

  /** `_format_outline`: one line per section. */
  function FormatOutline(sections: seq<OutlineSection>): string {
    Join("\n", FormatLines(sections))
  }

  lemma NumeralHasNoNewline(i: int)
    ensures '\n' !in IntToString(i)
  {
    var s := IntToString(i);
    var digits := NatToString(if i < 0 then -i else i);
    assert forall k :: 0 <= k < |digits| ==> digits[k] != '\n';
  }

  /** A section whose texts hold no line break takes exactly one line of the outline. */
  lemma FormatOutlineLines(sections: seq<OutlineSection>)
    requires sections != []
    requires forall i :: 0 <= i < |sections| ==>
      '\n' !in sections[i].number + sections[i].title + sections[i].role + sections[i].deliverable
    ensures SplitOn(FormatOutline(sections), '\n') == FormatLines(sections)
  {
    var lines := FormatLines(sections);
    forall i | 0 <= i < |lines| ensures '\n' !in lines[i] {
      LineHasNoNewline(sections[i]);
    }
    SplitJoin(lines, '\n');
  }

  lemma LineHasNoNewline(s: OutlineSection)
    requires '\n' !in s.number + s.title + s.role + s.deliverable
    ensures '\n' !in FormatLine(s)
  {
    NumeralHasNoNewline(s.budget);
    PartsHaveNoNewline(s.number, s.title, s.role, s.deliverable);
  }

  lemma PartsHaveNoNewline(a: string, b: string, c: string, d: string)
    requires '\n' !in a + b + c + d
    ensures '\n' !in a && '\n' !in b && '\n' !in c && '\n' !in d
  {
  }

  /** The budgets added up, first section first. */
  function SumBudgets(sections: seq<OutlineSection>): int {
    if sections == [] then 0 else SumBudgets(sections[..|sections| - 1]) + sections[|sections| - 1].budget
  }

  lemma SumBudgetsAppend(sections: seq<OutlineSection>, s: OutlineSection)
    ensures SumBudgets(sections + [s]) == SumBudgets(sections) + s.budget
  {
    assert (sections + [s])[..|sections|] == sections;
  }

  lemma SumBudgetsUpdate(sections: seq<OutlineSection>, s: OutlineSection)
    requires sections != []
    ensures SumBudgets(sections[|sections| - 1 := s]) == SumBudgets(sections) - sections[|sections| - 1].budget + s.budget
  {
    var n := |sections|;
    assert sections[n - 1 := s][..n - 1] == sections[..n - 1];
  }

  // ---------------------------------------------------------------------
  // The initial plan
  // ---------------------------------------------------------------------

  const ContextTitle := "Kontext und Zielbild"
  const ShortContextGoal := "Auftrag, Zielgruppe und Relevanz klarziehen."
  const MessagesTitle := "Kernbotschaften strukturieren"
  const MessagesGoal := "Leitthesen, Nutzen und Entscheidungsgrundlagen bündeln."
  const ClosingTitle := "Fazit und Handlungsimpuls"
  const ShortClosingGoal := "Schlüsse ziehen und konkrete Aktion anregen."
  const LongContextGoal := "Ausgangslage, Zielgruppe und Erwartungshaltung verorten."
  const GuardrailsTitle := "Strategische Leitplanken"
  const GuardrailsGoal := "Erfolgsfaktoren, Prioritäten und Entscheidungskriterien bündeln."
  const TacticsTitle := "Umsetzung und Taktik"
  const TacticsGoal := "Initiativen, Ressourcenbedarf und Meilensteine skizzieren."
  const LongClosingGoal := "Nutzen verdichten und nächsten Schritt aktivieren."

  /** `_build_outline_sections`: three sections below 360 words, four from there on. */
  function BuildOutlineSections(total: int): seq<OutlineSection> {
    if total < 360 then
      var intro := Max(60, Scale(total, 25, 100));
      var outro := Max(50, Scale(total, 20, 100));
      var body := Max(120, total - intro - outro);
      [OutlineSection("1", ContextTitle, "Hook", intro, ShortContextGoal),
       OutlineSection("2", MessagesTitle, "Argument", body, MessagesGoal),
       OutlineSection("3", ClosingTitle, "CTA", outro, ShortClosingGoal)]
    else
      var intro := Max(80, Scale(total, 22, 100));
      var outro := Max(70, Scale(total, 18, 100));
      var middle := Max(180, total - intro - outro);
      var core := Max(140, Scale(middle, 55, 100));
      var support := Max(100, middle - core);
      [OutlineSection("1", ContextTitle, "Hook", intro, LongContextGoal),
       OutlineSection("2", GuardrailsTitle, "Rahmen", core, GuardrailsGoal),
       OutlineSection("3", TacticsTitle, "Argument", support, TacticsGoal),
       OutlineSection("4", ClosingTitle, "CTA", outro, LongClosingGoal)]
  }

  /**
   * The plan opens with the hook and closes with the call to action, every
   * budget is at least 50 words, and together they cover the word count.
   */
  lemma BuildOutlineCovers(total: int)
    ensures |BuildOutlineSections(total)| == if total < 360 then 3 else 4
    ensures BuildOutlineSections(total)[0].role == "Hook"
    ensures BuildOutlineSections(total)[|BuildOutlineSections(total)| - 1].role == "CTA"
    ensures forall i :: 0 <= i < |BuildOutlineSections(total)| ==> BuildOutlineSections(total)[i].budget >= 50
    ensures SumBudgets(BuildOutlineSections(total)) >= total
  {
    var r := BuildOutlineSections(total);
    if total < 360 {
      SumThree(r[0], r[1], r[2]);
      assert r == [r[0], r[1], r[2]];
    } else {
      SumFour(r[0], r[1], r[2], r[3]);
      assert r == [r[0], r[1], r[2], r[3]];
    }
  }

  lemma SumThree(a: OutlineSection, b: OutlineSection, c: OutlineSection)
    ensures SumBudgets([a, b, c]) == a.budget + b.budget + c.budget
  {
    assert [a][..0] == [];
    assert SumBudgets([a]) == a.budget;
    assert [a, b][..1] == [a];
    assert SumBudgets([a, b]) == a.budget + b.budget;
    assert [a, b, c][..2] == [a, b];
  }

  lemma SumFour(a: OutlineSection, b: OutlineSection, c: OutlineSection, d: OutlineSection)
    ensures SumBudgets([a, b, c, d]) == a.budget + b.budget + c.budget + d.budget
  {
    assert [a, b, c, d][..3] == [a, b, c];
    SumThree(a, b, c);
  }

  // ---------------------------------------------------------------------
  // Terminology focus
  // ---------------------------------------------------------------------

  const FocusLabel := " Terminologie-Fokus: "

  /** One section of `_improve_outline`: name the focus term unless the deliverable has it. */
  function Improved(s: OutlineSection, term: string): OutlineSection {
    if term != [] && !Contains(Lower(s.deliverable), Lower(term)) then
      s.(deliverable := s.deliverable + FocusLabel + term + ".")
    else s
  }

  /** The sections with the terms assigned in turn, starting over when they run out. */
  function ImprovedOutline(sections: seq<OutlineSection>, terms: seq<string>): (r: seq<OutlineSection>)
    requires terms != []
    ensures |r| == |sections|
  {
    seq(|sections|, i requires 0 <= i < |sections| => Improved(sections[i], terms[i % |terms|]))
  }

  /** `_improve_outline`, whose loop draws the next term from a fresh cycle for every section. */
  method ImproveOutline(sections: seq<OutlineSection>, terms: seq<string>) returns (improved: seq<OutlineSection>)
    requires terms != []
    ensures improved == ImprovedOutline(sections, terms)
  {
    improved := [];
    for i := 0 to |sections|
      invariant |improved| == i
      invariant forall k :: 0 <= k < i ==> improved[k] == Improved(sections[k], terms[k % |terms|])
    {
      var term := terms[i % |terms|];
      var section := sections[i];
      var deliverable := section.deliverable;
      if term != [] && !Contains(Lower(deliverable), Lower(term)) {
        deliverable := deliverable + FocusLabel + term + ".";
      }
      improved := improved + [OutlineSection(section.number, section.title, section.role, section.budget, deliverable)];
    }
  }

  /**
   * Only deliverables change; each keeps its text as a prefix and then
   * mentions its focus term, ignoring case.
   */
  lemma ImprovedMentionsTerm(sections: seq<OutlineSection>, terms: seq<string>, i: nat)
    requires terms != [] && i < |sections|
    ensures var r := ImprovedOutline(sections, terms)[i];
      r.number == sections[i].number && r.title == sections[i].title &&
      r.role == sections[i].role && r.budget == sections[i].budget &&
      StartsWith(r.deliverable, sections[i].deliverable) &&
      (terms[i % |terms|] != [] ==> Contains(Lower(r.deliverable), Lower(terms[i % |terms|])))
  {
    var s := sections[i];
    var term := terms[i % |terms|];
    var r := ImprovedOutline(sections, terms)[i];
    if term != [] && !Contains(Lower(s.deliverable), Lower(term)) {
      var d := s.deliverable + FocusLabel + term + ".";
      assert d == (s.deliverable + FocusLabel) + term + ".";
      assert d[..|s.deliverable|] == s.deliverable;
      LowerConcat(s.deliverable + FocusLabel, term);
      LowerConcat((s.deliverable + FocusLabel) + term, ".");
      ContainsSelf(Lower(term));
      ContainsRight(Lower(s.deliverable + FocusLabel), Lower(term), Lower(term));
      ContainsLeft(Lower(s.deliverable + FocusLabel) + Lower(term), Lower("."), Lower(term));
    } else {
      assert s.deliverable[..|s.deliverable|] == s.deliverable;
    }
  }

  // ---------------------------------------------------------------------
  // Budget balancing
  // ---------------------------------------------------------------------

  const MinBudget := 60

  /** Every budget raised to the minimum. */
  function Floored(sections: seq<OutlineSection>): (r: seq<OutlineSection>)
    ensures |r| == |sections|
  {
    seq(|sections|, i requires 0 <= i < |sections| =>
      sections[i].(budget := Max(MinBudget, sections[i].budget)))
  }

  /** The difference spread evenly, the remainder one word each from the front, floored again. */
  function Balanced(sections: seq<OutlineSection>, perSection: int, remainder: int): (r: seq<OutlineSection>)
    ensures |r| == |sections|
  {
    seq(|sections|, i requires 0 <= i < |sections| =>
      sections[i].(budget := Max(MinBudget, sections[i].budget + perSection + (if i < remainder then 1 else 0))))
  }

  /** The last budget absorbs what is still missing or left over, without going below the minimum. */
  function Settled(sections: seq<OutlineSection>, wordCount: int): (r: seq<OutlineSection>)
    ensures |r| == |sections|
  {
    var recalculated := SumBudgets(sections);
    if sections == [] || recalculated == wordCount then sections
    else
      var last := sections[|sections| - 1];
      sections[|sections| - 1 := last.(budget := Max(MinBudget, last.budget + (wordCount - recalculated)))]
  }

  /** `_clean_outline` */
  function Cleaned(sections: seq<OutlineSection>, wordCount: int): (r: seq<OutlineSection>)
    ensures |r| == |sections|
  {
    if sections == [] then []
    else
      var floored := Floored(sections);
      var difference := wordCount - SumBudgets(floored);
      var balanced := if difference != 0 then Balanced(floored, difference / |floored|, difference % |floored|)
                      else floored;
      Settled(balanced, wordCount)
  }

  /** `_clean_outline` with its accumulating loop, its balancing loop and the overwrite of the last entry. */
  method CleanOutline(sections: seq<OutlineSection>, wordCount: int) returns (adjusted: seq<OutlineSection>)
    ensures adjusted == Cleaned(sections, wordCount)
  {
    if sections == [] {
      return sections;
    }
    var totalBudget;
    adjusted, totalBudget := FloorBudgets(sections);
    var difference := wordCount - totalBudget;
    if difference != 0 {
      adjusted := SpreadDifference(adjusted, difference / |adjusted|, difference % |adjusted|);
    }
    var recalculated := SumBudgets(adjusted);
    if recalculated != wordCount {
      var delta := wordCount - recalculated;
      var last := adjusted[|adjusted| - 1];
      adjusted := adjusted[|adjusted| - 1 := OutlineSection(last.number, last.title, last.role,
                                                            Max(MinBudget, last.budget + delta), last.deliverable)];
    }
  }

  /** The first loop of `_clean_outline`: floors each budget and totals the result. */
  method FloorBudgets(sections: seq<OutlineSection>) returns (adjusted: seq<OutlineSection>, totalBudget: int)
    ensures adjusted == Floored(sections) && totalBudget == SumBudgets(adjusted)
  {
    adjusted := [];
    totalBudget := 0;
    for i := 0 to |sections|
      invariant |adjusted| == i && totalBudget == SumBudgets(adjusted)
      invariant forall k :: 0 <= k < i ==> adjusted[k] == Floored(sections)[k]
    {
      var section := sections[i];
      var budget := Max(MinBudget, section.budget);
      SumBudgetsAppend(adjusted, OutlineSection(section.number, section.title, section.role, budget, section.deliverable));
      adjusted := adjusted + [OutlineSection(section.number, section.title, section.role, budget, section.deliverable)];
      totalBudget := totalBudget + budget;
    }
  }

  /** The second loop of `_clean_outline`: `perSection` for each, one more for the first `remainder`. */
  method SpreadDifference(adjusted: seq<OutlineSection>, perSection: int, remainder: int)
    returns (balanced: seq<OutlineSection>)
    ensures balanced == Balanced(adjusted, perSection, remainder)
  {
    balanced := [];
    for idx := 0 to |adjusted|
      invariant |balanced| == idx
      invariant forall k :: 0 <= k < idx ==> balanced[k] == Balanced(adjusted, perSection, remainder)[k]
    {
      var section := adjusted[idx];
      var extra := perSection + (if idx < remainder then 1 else 0);
      var newBudget := Max(MinBudget, section.budget + extra);
      balanced := balanced + [OutlineSection(section.number, section.title, section.role, newBudget, section.deliverable)];
    }
  }

  /** Balancing keeps every section's number, title, role and deliverable and floors every budget at 60. */
  lemma CleanedShape(sections: seq<OutlineSection>, wordCount: int)
    ensures |Cleaned(sections, wordCount)| == |sections|
    ensures forall i :: 0 <= i < |sections| ==>
      var r := Cleaned(sections, wordCount)[i];
      r.number == sections[i].number && r.title == sections[i].title &&
      r.role == sections[i].role && r.deliverable == sections[i].deliverable && r.budget >= MinBudget
  {
  }

  /** The settling step never leaves the total below the target. */
  lemma SettledCovers(sections: seq<OutlineSection>, wordCount: int)
    requires sections != []
    ensures SumBudgets(Settled(sections, wordCount)) >= wordCount
    ensures SumBudgets(sections) == wordCount ==> Settled(sections, wordCount) == sections
  {
    var recalculated := SumBudgets(sections);
    if recalculated != wordCount {
      var last := sections[|sections| - 1];
      SumBudgetsUpdate(sections, last.(budget := Max(MinBudget, last.budget + (wordCount - recalculated))));
    }
  }

  /** Spreading `per` per section and one more to the first `rem` adds `per * n + min(n, rem)` in all. */
  lemma {:induction false} SumSpread(b: seq<OutlineSection>, c: seq<OutlineSection>, per: int, rem: int)
    requires |b| == |c|
    requires forall i :: 0 <= i < |b| ==> c[i].budget == b[i].budget + per + (if i < rem then 1 else 0)
    ensures SumBudgets(c) == SumBudgets(b) + per * |b| + Max(0, Min(|b|, rem))
  {
    if b != [] {
      var n := |b|;
      SumSpread(b[..n - 1], c[..n - 1], per, rem);
      MulStep(per, n);
    }
  }

  lemma MulStep(per: int, n: int)
    ensures per * n == per * (n - 1) + per
  {
  }

  lemma DivMod(d: int, n: int)
    requires d >= 0 && n > 0
    ensures d / n >= 0 && 0 <= d % n < n && (d / n) * n + d % n == d
  {
  }

  /** The total after cleaning is never below the word count. */
  lemma CleanedCovers(sections: seq<OutlineSection>, wordCount: int)
    requires sections != []
    ensures SumBudgets(Cleaned(sections, wordCount)) >= wordCount
  {
    var floored := Floored(sections);
    var difference := wordCount - SumBudgets(floored);
    var balanced := if difference != 0 then Balanced(floored, difference / |floored|, difference % |floored|)
                    else floored;
    SettledCovers(balanced, wordCount);
  }

  /**
   * When the floored budgets do not exceed the word count, balancing only
   * adds words, and the result sums to the word count exactly.
   */
  lemma CleanedExact(sections: seq<OutlineSection>, wordCount: int)
    requires sections != []
    requires SumBudgets(Floored(sections)) <= wordCount
    ensures SumBudgets(Cleaned(sections, wordCount)) == wordCount
  {
    var floored := Floored(sections);
    var n := |floored|;
    var difference := wordCount - SumBudgets(floored);
    if difference != 0 {
      var per := difference / n;
      var rem := difference % n;
      DivMod(difference, n);
      var balanced := Balanced(floored, per, rem);
      forall i | 0 <= i < n
        ensures balanced[i].budget == floored[i].budget + per + (if i < rem then 1 else 0)
      {
        assert floored[i].budget >= MinBudget;
      }
      SumSpread(floored, balanced, per, rem);
      SettledCovers(balanced, wordCount);
    } else {
      SettledCovers(floored, wordCount);
    }
  }

  /** Three minimal sections cannot shrink to a target of 100 words: the total stays at 180. */
  lemma CleanedCanExceed()
    ensures var s := OutlineSection("1", "A", "Hook", 60, "x");
      SumBudgets(Cleaned([s, s, s], 100)) == 180
  {
    var s := OutlineSection("1", "A", "Hook", 60, "x");
    var floored := Floored([s, s, s]);
    assert floored == [s, s, s];
    SumThree(s, s, s);
    var balanced := Balanced(floored, -27, 1);
    assert (-80) / 3 == -27 && (-80) % 3 == 1;
    assert balanced == [s, s, s];
  }
}
