/**
 * The writer agent's section composition (`wordsmith/agent.py`) as
 * functions of the agent's inputs and of the per-run state threaded through
 * the calls: the term cycle, keyword injection, the word-budget adjustment
 * of a section, the whole draft, the briefing and idea, the key terms, the
 * rubric fix step and the run's artifacts.
 */
module Composition {
  import opened Common
  import opened Strings
  import opened Numerals
  import opened WordSplit
  import opened Json
  import opened Outline
  import opened Drafting

  /** The agent's dataclass fields that `run` never changes. */
  datatype Request = Request(
    topic: string,
    wordCount: int,
    iterations: int,
    content: string,
    textType: string,
    audience: string,
    tone: string,
    register: string,
    variant: string,
    constraints: string,
    sourcesAllowed: bool,
    seoKeywords: seq<string>)

  /** The per-run flags and position a section changes. */
  datatype Progress = Progress(
    termPos: nat,
    placeholderInserted: bool,
    sourcesSentenceUsed: bool,
    keywordsUsed: set<string>)

  // ---------------------------------------------------------------------
  // The term cycle
  // ---------------------------------------------------------------------

  /** `n` successive values of `itertools.cycle(terms)` from position `pos`. */
  function CycleTake(terms: seq<string>, pos: nat, n: nat): seq<string>
    requires terms != []
    decreases n
  {
    if n == 0 then [] else [terms[pos % |terms|]] + CycleTake(terms, pos + 1, n - 1)
  }

  /** The `i`-th term taken is the term at position `pos + i`, around the list. */
  lemma {:induction false} CycleTakeSpec(terms: seq<string>, pos: nat, n: nat)
    requires terms != []
    ensures |CycleTake(terms, pos, n)| == n
    ensures forall i :: 0 <= i < n ==> CycleTake(terms, pos, n)[i] == terms[(pos + i) % |terms|]
    decreases n
  {
    if n > 0 {
      CycleTakeSpec(terms, pos + 1, n - 1);
      forall i | 0 < i < n ensures CycleTake(terms, pos, n)[i] == terms[(pos + i) % |terms|] {
        assert CycleTake(terms, pos, n)[i] == CycleTake(terms, pos + 1, n - 1)[i - 1];
        assert pos + 1 + (i - 1) == pos + i;
      }
    }
  }

  /** Taking `a` terms and then `b` more is taking `a + b` terms. */
  lemma {:induction false} CycleTakeSplit(terms: seq<string>, pos: nat, a: nat, b: nat)
    requires terms != []
    ensures CycleTake(terms, pos, a + b) == CycleTake(terms, pos, a) + CycleTake(terms, pos + a, b)
    decreases a
  {
    if a > 0 {
      CycleTakeSplit(terms, pos + 1, a - 1, b);
      assert pos + 1 + (a - 1) == pos + a;
    }
  }

  /** `_take_terms(n)`: nothing while the terminology cache is empty, else `n` terms in turn. */
  function Taken(terms: seq<string>, pos: nat, n: nat): seq<string> {
    if terms == [] then [] else CycleTake(terms, pos, n)
  }

  /** The cycle's position after `_take_terms(n)`. */
  function Advanced(terms: seq<string>, pos: nat, n: nat): nat {
    if terms == [] then pos else pos + n
  }

  lemma TakenSpec(terms: seq<string>, pos: nat, n: nat)
    ensures terms == [] ==> Taken(terms, pos, n) == [] && Advanced(terms, pos, n) == pos
    ensures terms != [] ==> (|Taken(terms, pos, n)| == n && Advanced(terms, pos, n) == pos + n &&
      forall i :: 0 <= i < n ==> Taken(terms, pos, n)[i] == terms[(pos + i) % |terms|])
  {
    if terms != [] {
      CycleTakeSpec(terms, pos, n);
    }
  }

  lemma TakenOne(terms: seq<string>, pos: nat)
    requires terms != []
    ensures Taken(terms, pos, 1) == [terms[pos % |terms|]]
  {
    assert CycleTake(terms, pos + 1, 0) == [];
  }

  /** The single term `_expansion_sentence` draws, or its fallback. */
  function Keyword(terms: seq<string>, pos: nat, fallback: string): string {
    if terms == [] then fallback else terms[pos % |terms|]
  }

  // ---------------------------------------------------------------------
  // Keyword injection
  // ---------------------------------------------------------------------

  const KeywordLead := "Das Stichwort '"
  const KeywordTail := "' stärkt die SEO-Ausrichtung ohne den Lesefluss zu stören."

  function KeywordSentence(keyword: string): string {
    KeywordLead + keyword + KeywordTail
  }

  /** The position of the first keyword whose lower-case form is not used yet, or the length. */
  function FirstUnusedIndex(keywords: seq<string>, used: set<string>): (r: nat)
    ensures r <= |keywords|
    ensures forall j :: 0 <= j < r ==> Lower(keywords[j]) in used
    ensures r < |keywords| ==> Lower(keywords[r]) !in used
  {
    if keywords == [] then 0
    else if Lower(keywords[0]) !in used then 0
    else 1 + FirstUnusedIndex(keywords[1..], used)
  }

  /** `_inject_keyword`: the sentences and the used set afterwards. */
  function Injected(sentences: seq<string>, keywords: seq<string>, used: set<string>): (seq<string>, set<string>) {
    var i := FirstUnusedIndex(keywords, used);
    if i < |keywords| then (sentences + [KeywordSentence(keywords[i])], used + {Lower(keywords[i])})
    else (sentences, used)
  }

  /**
   * At most one sentence is appended, for the first keyword not yet used,
   * and only that keyword joins the used set; when every keyword is used
   * nothing changes.
   */
  lemma InjectedSpec(sentences: seq<string>, keywords: seq<string>, used: set<string>)
    ensures var (r, u) := Injected(sentences, keywords, used);
      |sentences| <= |r| <= |sentences| + 1 && r[..|sentences|] == sentences &&
      used <= u && |u - used| <= 1 &&
      ((forall j :: 0 <= j < |keywords| ==> Lower(keywords[j]) in used) <==> (r == sentences && u == used))
    ensures forall i :: (0 <= i < |keywords| && Lower(keywords[i]) !in used &&
      (forall j :: 0 <= j < i ==> Lower(keywords[j]) in used)) ==>
      Injected(sentences, keywords, used) == (sentences + [KeywordSentence(keywords[i])], used + {Lower(keywords[i])})
  {
    var i := FirstUnusedIndex(keywords, used);
    var (r, u) := Injected(sentences, keywords, used);
    if i < |keywords| {
      assert r[..|sentences|] == sentences;
      assert u - used == {Lower(keywords[i])};
      assert r != sentences by { assert |r| == |sentences| + 1; }
    } else {
      assert u - used == {};
      assert r[..|sentences|] == sentences;
    }
  }

  /** The first unused keyword is the one every earlier keyword's lower-case form precedes in the used set. */
  lemma {:induction false} FirstUnusedIndexIs(keywords: seq<string>, used: set<string>, i: nat)
    requires i <= |keywords|
    requires forall j :: 0 <= j < i ==> Lower(keywords[j]) in used
    requires i < |keywords| ==> Lower(keywords[i]) !in used
    ensures FirstUnusedIndex(keywords, used) == i
  {
    if i > 0 {
      assert Lower(keywords[0]) in used;
      forall j | 0 <= j < i - 1 ensures Lower(keywords[1..][j]) in used {
        assert keywords[1..][j] == keywords[j + 1];
      }
      if i < |keywords| {
        assert keywords[1..][i - 1] == keywords[i];
      }
      FirstUnusedIndexIs(keywords[1..], used, i - 1);
    }
  }

  // ---------------------------------------------------------------------
  // Fixed sentences
  // ---------------------------------------------------------------------

  const PlaceholderHead := "Kennzahlen ohne Freigabe markieren "
  const PlaceholderMiddle := "wir als [KENNZAHL], bis die "
  const PlaceholderTail := "verantwortlichen Stellen sie liefern."
  const PlaceholderSentence := PlaceholderHead + PlaceholderMiddle + PlaceholderTail
  const SourcesSentence := "Quellenangaben werden nach " + "Freigabe ergänzt [KLÄREN: Quellenfreigabe]."

  const CtaDuLead := "Nutze die Impulse, um "
  const CtaDuTail := " im Alltag deines Teams zu verankern."
  const CtaSieLead := "Nutzen Sie die Impulse, um "
  const CtaSieTail := " im Alltag Ihres Teams zu verankern."

  /** `_cta_sentence` */
  function CtaSentence(register: string, topic: string): string {
    if Lower(register) == "du" then CtaDuLead + Lower(topic) + CtaDuTail
    else CtaSieLead + Lower(topic) + CtaSieTail
  }

  lemma StartsWithConcat(a: string, b: string, prefix: string)
    requires StartsWith(a, prefix)
    ensures StartsWith(a + b, prefix) && Contains(a + b, prefix)
  {
    assert (a + b)[..|prefix|] == a[..|prefix|];
  }

  /** The call to action carries the phrase the rubric looks for in its register. */
  lemma CtaSatisfiesRubric(register: string, topic: string)
    ensures Lower(register) == "du" ==> Contains(CtaSentence(register, topic), "Nutze")
    ensures Lower(register) != "du" ==> Contains(CtaSentence(register, topic), "Nutzen Sie")
  {
    var t := Lower(topic);
    if Lower(register) == "du" {
      StartsWithConcat(CtaDuLead, t, "Nutze");
      StartsWithConcat(CtaDuLead + t, CtaDuTail, "Nutze");
    } else {
      StartsWithConcat(CtaSieLead, t, "Nutzen Sie");
      StartsWithConcat(CtaSieLead + t, CtaSieTail, "Nutzen Sie");
    }
  }

  /** `_expansion_sentence` with its term drawn. */
  const ExpansionLead := "Der Abschnitt verknüpft "
  const ExpansionTerm := " mit dem Schlüsselbegriff "
  const ExpansionFocus := " und hält den Fokus auf "

  function ExpansionSentence(message: string, keyword: string, title: string): string {
    ExpansionLead + message + ExpansionTerm + keyword + ExpansionFocus + title + "."
  }

  lemma ExpansionHasWords(message: string, keyword: string, title: string)
    ensures CountWords(ExpansionSentence(message, keyword, title)) >= 1
  {
    var s := ExpansionSentence(message, keyword, title);
    assert s[0] == 'D';
    WordsNonEmpty(s);
  }

  /** The message an expansion sentence names: the first one, or the topic. */
  function ExpansionMessage(messages: seq<string>, topic: string): string {
    if messages != [] then messages[0] else topic
  }

  // ---------------------------------------------------------------------
  // A section's word budget
  // ---------------------------------------------------------------------

  /** The second loop of `_adjust_section_to_budget`: append expansions until the text reaches `lower`. */
  function Grown(sentences: seq<string>, lower: int, message: string, title: string,
                 terms: seq<string>, pos: nat, fallback: string): (seq<string>, nat)
    decreases lower - CountWords(Join(" ", sentences))
  {
    if CountWords(Join(" ", sentences)) >= lower then (sentences, pos)
    else
      var e := ExpansionSentence(message, Keyword(terms, pos, fallback), title);
      ExpansionHasWords(message, Keyword(terms, pos, fallback), title);
      JoinAppendWords(sentences, e);
      Grown(sentences + [e], lower, message, title, terms, Advanced(terms, pos, 1), fallback)
  }

  /** Growing stops at the first length of at least `lower` words and only appends. */
  lemma {:induction false} GrownSpec(sentences: seq<string>, lower: int, message: string, title: string,
                                     terms: seq<string>, pos: nat, fallback: string)
    ensures var (g, p) := Grown(sentences, lower, message, title, terms, pos, fallback);
      CountWords(Join(" ", g)) >= lower && |g| >= |sentences| && g[..|sentences|] == sentences &&
      (CountWords(Join(" ", sentences)) >= lower ==> g == sentences && p == pos)
    decreases lower - CountWords(Join(" ", sentences))
  {
    if CountWords(Join(" ", sentences)) < lower {
      var e := ExpansionSentence(message, Keyword(terms, pos, fallback), title);
      ExpansionHasWords(message, Keyword(terms, pos, fallback), title);
      JoinAppendWords(sentences, e);
      GrownSpec(sentences + [e], lower, message, title, terms, Advanced(terms, pos, 1), fallback);
      var g := Grown(sentences + [e], lower, message, title, terms, Advanced(terms, pos, 1), fallback).0;
      assert g[..|sentences|] == (g[..|sentences| + 1])[..|sentences|];
    } else {
      assert sentences[..|sentences|] == sentences;
    }
  }

  /**
   * `_adjust_section_to_budget`: the section text and the cycle position
   * after the expansions drew their terms.
   */
  function AdjustedSection(sentences: seq<string>, budget: int, message: string, title: string,
                           terms: seq<string>, pos: nat, fallback: string, variant: string): (string, nat)
  {
    var lower := BudgetLower(budget);
    var upper := BudgetUpper(budget);
    var kept := Popped(sentences, upper);
    var text := Join(" ", kept);
    if CountWords(text) > upper then (EnsureVariant(variant, FirstWords(text, upper)), pos)
    else
      var (grown, p) := Grown(kept, lower, message, title, terms, pos, fallback);
      (EnsureVariant(variant, Join(" ", grown)), p)
  }

  /**
   * The section has at least the lower bound of words; when even one
   * sentence is over the upper bound it is cut to exactly the upper bound;
   * within both bounds the sentences are joined unchanged.
   */
  lemma AdjustedSectionSpec(sentences: seq<string>, budget: int, message: string, title: string,
                            terms: seq<string>, pos: nat, fallback: string, variant: string)
    ensures var (text, _) := AdjustedSection(sentences, budget, message, title, terms, pos, fallback, variant);
      CountWords(text) >= BudgetLower(budget) &&
      (CountWords(Join(" ", Popped(sentences, BudgetUpper(budget)))) > BudgetUpper(budget) ==>
        CountWords(text) == BudgetUpper(budget)) &&
      (BudgetLower(budget) <= CountWords(Join(" ", sentences)) <= BudgetUpper(budget) ==>
        text == EnsureVariant(variant, Join(" ", sentences)))
  {
    var lower := BudgetLower(budget);
    var upper := BudgetUpper(budget);
    var kept := Popped(sentences, upper);
    var joined := Join(" ", kept);
    if CountWords(joined) > upper {
      FirstWordsSpec(joined, upper);
      EnsureVariantSpec(variant, FirstWords(joined, upper));
    } else {
      GrownSpec(kept, lower, message, title, terms, pos, fallback);
      var grown := Grown(kept, lower, message, title, terms, pos, fallback).0;
      EnsureVariantSpec(variant, Join(" ", grown));
    }
  }

  /** `_section_summary`: the first sentence's text, or the lowered title. */
  function SectionSummary(section: OutlineSection, text: string): string {
    var first := Strip(SplitOn(text, '.')[0]);
    if first != [] then first else Lower(section.title)
  }

  // ---------------------------------------------------------------------
  // A section
  // ---------------------------------------------------------------------

  /** The briefing dictionary of `_normalize_briefing`. */
  datatype Briefing = Briefing(
    goal: string,
    audience: string,
    tone: string,
    register: string,
    variant: string,
    constraints: string,
    keyTerms: seq<string>,
    messages: seq<string>,
    seoKeywords: Option<seq<string>>)

  datatype Composed = Composed(text: string, summary: string, progress: Progress)

  function SectionHeading(section: OutlineSection): string {
    "## " + section.number + ". " + section.title + " (" + section.role + ")"
  }

  // The fixed wording of the section sentences.
  const Positions := " positioniert '"
  const Explains := " und erklärt, warum "
  const WhyNow := " jetzt wichtig ist."
  const BuildsOn := "Aufbauend auf "
  const Deepens := " vertieft der Abschnitt die Perspektive auf "
  const TermsLead := " Begriffe wie "
  const TermsTail := " dienen als Terminologie-Anker."
  const FocusLead := " Dabei bleibt der Fokus klar auf "
  const IdeaLead := "Die ausgearbeitete Idee betont: "
  const OutlookLead := "Der Ausblick bereitet den Abschnitt \""
  const OutlookTail := "\" vor."
  const RequestLead := "So übersetzt der Abschnitt " + "die Anforderung '"
  const RequestTail := "' in handlungsfähige Schritte."

  /** The opening sentence: the positioning for the first section, the link back for the others. */
  function OpeningSentence(q: Request, b: Briefing, sections: seq<OutlineSection>, index: nat, previous: string): string
    requires index < |sections|
  {
    if index == 0 then
      "Dieser " + Lower(q.textType) + Positions + q.topic + "' für " + q.audience + Explains + b.goal + WhyNow
    else
      var reference := if previous != [] then previous else Lower(sections[index - 1].title);
      BuildsOn + reference + Deepens + q.topic + "."
  }

  function FocusSentence(q: Request, section: OutlineSection, keyTerms: seq<string>): string {
    if keyTerms != [] then section.deliverable + TermsLead + Join(", ", keyTerms) + TermsTail
    else section.deliverable + FocusLead + q.topic + "."
  }

  function IdeaSentences(bullets: seq<string>, index: nat): seq<string> {
    if bullets != [] then [IdeaLead + Strip(bullets[index % |bullets|]) + "."] else []
  }

  function SectionMessage(q: Request, b: Briefing, index: nat): string {
    if b.messages != [] then b.messages[index % |b.messages|] else q.topic
  }

  function ClosingSentence(q: Request, sections: seq<OutlineSection>, index: nat): string
    requires index < |sections|
  {
    if index < |sections| - 1 then OutlookLead + sections[index + 1].title + OutlookTail
    else CtaSentence(q.register, q.topic)
  }

  function RequestSentence(message: string): string {
    RequestLead + message + RequestTail
  }

  /** The sentences up to the placeholder: opening, focus, idea bullet, placeholder. */
  function LeadSentences(q: Request, b: Briefing, bullets: seq<string>, sections: seq<OutlineSection>,
                         index: nat, previous: string, keyTerms: seq<string>, placeholderInserted: bool): seq<string>
    requires index < |sections|
  {
    [OpeningSentence(q, b, sections, index, previous), FocusSentence(q, sections[index], keyTerms)] +
    IdeaSentences(bullets, index) + (if !placeholderInserted then [PlaceholderSentence] else [])
  }

  /** The keyword sentence, if any, and the used set after it. */
  function WithKeyword(q: Request, sentences: seq<string>, used: set<string>): (seq<string>, set<string>) {
    if q.seoKeywords != [] then Injected(sentences, q.seoKeywords, used) else (sentences, used)
  }

  function SourcesSentences(q: Request, sourcesSentenceUsed: bool): seq<string> {
    if !q.sourcesAllowed && !sourcesSentenceUsed then [SourcesSentence] else []
  }

  /** The sentence list `_compose_section` hands to the budget step, given the key terms drawn. */
  function SectionSentences(q: Request, b: Briefing, bullets: seq<string>, st: Progress, sections: seq<OutlineSection>,
                            index: nat, previous: string, keyTerms: seq<string>): seq<string>
    requires index < |sections|
  {
    var lead := LeadSentences(q, b, bullets, sections, index, previous, keyTerms, st.placeholderInserted);
    WithKeyword(q, lead, st.keywordsUsed).0 + SourcesSentences(q, st.sourcesSentenceUsed) +
    [RequestSentence(SectionMessage(q, b, index)), ClosingSentence(q, sections, index)]
  }

  /** `_compose_section`: the section's heading and text, its summary, and the state after it. */
  function ComposedSection(q: Request, terms: seq<string>, bullets: seq<string>, st: Progress,
                           sections: seq<OutlineSection>, b: Briefing, index: nat, previous: string): Composed
    requires index < |sections|
  {
    var section := sections[index];
    var keyTerms := Taken(terms, st.termPos, 2);
    var pos := Advanced(terms, st.termPos, 2);
    var lead := LeadSentences(q, b, bullets, sections, index, previous, keyTerms, st.placeholderInserted);
    var sentences := SectionSentences(q, b, bullets, st, sections, index, previous, keyTerms);
    var (text, pos') := AdjustedSection(sentences, section.budget, ExpansionMessage(b.messages, q.topic), section.title,
                                        terms, pos, Lower(q.topic), q.variant);
    Composed(SectionHeading(section) + "\n" + text, SectionSummary(section, text),
             Progress(pos', true, st.sourcesSentenceUsed || !q.sourcesAllowed, WithKeyword(q, lead, st.keywordsUsed).1))
  }

  /**
   * After a section the placeholder counts as inserted, the sources note as
   * used once it is due, and at most one keyword has joined the used set.
   */
  lemma ComposedSectionSpec(q: Request, terms: seq<string>, bullets: seq<string>, st: Progress,
                            sections: seq<OutlineSection>, b: Briefing, index: nat, previous: string)
    requires index < |sections|
    ensures var c := ComposedSection(q, terms, bullets, st, sections, b, index, previous);
      c.progress.placeholderInserted &&
      (c.progress.sourcesSentenceUsed <==> st.sourcesSentenceUsed || !q.sourcesAllowed) &&
      st.keywordsUsed <= c.progress.keywordsUsed && |c.progress.keywordsUsed - st.keywordsUsed| <= 1 &&
      c.progress.termPos >= Advanced(terms, st.termPos, 2)
  {
    var keyTerms := Taken(terms, st.termPos, 2);
    var lead := LeadSentences(q, b, bullets, sections, index, previous, keyTerms, st.placeholderInserted);
    InjectedSpec(lead, q.seoKeywords, st.keywordsUsed);
    var pos := Advanced(terms, st.termPos, 2);
    var sentences := SectionSentences(q, b, bullets, st, sections, index, previous, keyTerms);
    var section := sections[index];
    var upper := BudgetUpper(section.budget);
    var kept := Popped(sentences, upper);
    if CountWords(Join(" ", kept)) <= upper {
      GrownPosition(kept, BudgetLower(section.budget), ExpansionMessage(b.messages, q.topic), section.title, terms, pos, Lower(q.topic));
    }
  }

  lemma {:induction false} GrownPosition(sentences: seq<string>, lower: int, message: string, title: string,
                                         terms: seq<string>, pos: nat, fallback: string)
    ensures Grown(sentences, lower, message, title, terms, pos, fallback).1 >= pos
    decreases lower - CountWords(Join(" ", sentences))
  {
    if CountWords(Join(" ", sentences)) < lower {
      var e := ExpansionSentence(message, Keyword(terms, pos, fallback), title);
      ExpansionHasWords(message, Keyword(terms, pos, fallback), title);
      JoinAppendWords(sentences, e);
      GrownPosition(sentences + [e], lower, message, title, terms, Advanced(terms, pos, 1), fallback);
    }
  }

  /** The placeholder opens with `K`, ends with `n.` and has no `D`. */
  lemma PlaceholderLetters()
    ensures PlaceholderSentence[0] == 'K' && |PlaceholderSentence| > 2 && PlaceholderSentence[|PlaceholderSentence| - 2] == 'n'
    ensures 'D' !in PlaceholderSentence
  {
    PlaceholderEnds();
    PlaceholderHasNoD();
  }

  lemma PlaceholderEnds()
    ensures PlaceholderSentence[0] == 'K' && |PlaceholderSentence| > 2 && PlaceholderSentence[|PlaceholderSentence| - 2] == 'n'
  {
  }

  lemma PlaceholderHasNoD()
    ensures 'D' !in PlaceholderSentence
  {
    NoLetterIn('D', PlaceholderHead);
    NoLetterIn('D', PlaceholderMiddle);
    NoLetterIn('D', PlaceholderTail);
  }

  lemma NoLetterIn(c: char, s: string)
    requires forall i :: 0 <= i < |s| ==> s[i] != c
    ensures c !in s
  {
  }

  /** A sentence opening with another letter is not the placeholder. */
  lemma OpensNotPlaceholder(s: string)
    requires s != [] && s[0] != 'K'
    ensures s != PlaceholderSentence
  {
    PlaceholderLetters();
  }

  lemma OpeningNotPlaceholder(q: Request, b: Briefing, sections: seq<OutlineSection>, index: nat, previous: string)
    requires index < |sections|
    ensures OpeningSentence(q, b, sections, index, previous) != PlaceholderSentence
  {
    var o := OpeningSentence(q, b, sections, index, previous);
    if index == 0 {
      assert o[0] == 'D';
    } else {
      assert o[0] == 'A';
    }
    OpensNotPlaceholder(o);
  }

  lemma FocusNotPlaceholder(q: Request, section: OutlineSection, keyTerms: seq<string>)
    ensures FocusSentence(q, section, keyTerms) != PlaceholderSentence
  {
    PlaceholderLetters();
    var d := section.deliverable;
    var f := FocusSentence(q, section, keyTerms);
    if keyTerms != [] {
      var tail := TermsTail;
      assert f == (d + TermsLead + Join(", ", keyTerms)) + tail;
      assert f[|f| - 2] == tail[|tail| - 2] == 'r';
    } else {
      var front := d + FocusLead;
      assert f == front + (q.topic + ".");
      assert f[|d| + 1] == front[|d| + 1] == 'D';
    }
  }

  lemma IdeaNotPlaceholder(bullets: seq<string>, index: nat)
    ensures PlaceholderSentence !in IdeaSentences(bullets, index)
  {
    if bullets != [] {
      var i := IdeaSentences(bullets, index)[0];
      assert i[0] == 'D';
      OpensNotPlaceholder(i);
    }
  }

  lemma KeywordNotPlaceholder(k: string)
    ensures KeywordSentence(k) != PlaceholderSentence
  {
    assert KeywordSentence(k)[0] == 'D';
    OpensNotPlaceholder(KeywordSentence(k));
  }

  lemma RequestNotPlaceholder(message: string)
    ensures RequestSentence(message) != PlaceholderSentence
  {
    assert RequestSentence(message)[0] == 'S';
    OpensNotPlaceholder(RequestSentence(message));
  }

  lemma ClosingNotPlaceholder(q: Request, sections: seq<OutlineSection>, index: nat)
    requires index < |sections|
    ensures ClosingSentence(q, sections, index) != PlaceholderSentence
  {
    var c := ClosingSentence(q, sections, index);
    if index < |sections| - 1 {
      assert c[0] == 'D';
    } else {
      assert c[0] == 'N';
    }
    OpensNotPlaceholder(c);
  }

  lemma SourcesNotPlaceholder(q: Request, used: bool)
    ensures PlaceholderSentence !in SourcesSentences(q, used)
  {
    assert SourcesSentence[0] == 'Q';
    OpensNotPlaceholder(SourcesSentence);
  }

  /**
   * The placeholder sentence is in a section's sentences exactly when no
   * earlier section has named it.
   */
  lemma PlaceholderOnce(q: Request, b: Briefing, bullets: seq<string>, st: Progress, sections: seq<OutlineSection>,
                        index: nat, previous: string, keyTerms: seq<string>)
    requires index < |sections|
    ensures PlaceholderSentence in SectionSentences(q, b, bullets, st, sections, index, previous, keyTerms) <==>
      !st.placeholderInserted
  {
    var lead := LeadSentences(q, b, bullets, sections, index, previous, keyTerms, st.placeholderInserted);
    var withKw := WithKeyword(q, lead, st.keywordsUsed).0;
    OpeningNotPlaceholder(q, b, sections, index, previous);
    FocusNotPlaceholder(q, sections[index], keyTerms);
    IdeaNotPlaceholder(bullets, index);
    SourcesNotPlaceholder(q, st.sourcesSentenceUsed);
    RequestNotPlaceholder(SectionMessage(q, b, index));
    ClosingNotPlaceholder(q, sections, index);
    InjectedSpec(lead, q.seoKeywords, st.keywordsUsed);
    if q.seoKeywords != [] && FirstUnusedIndex(q.seoKeywords, st.keywordsUsed) < |q.seoKeywords| {
      KeywordNotPlaceholder(q.seoKeywords[FirstUnusedIndex(q.seoKeywords, st.keywordsUsed)]);
    }
    assert PlaceholderSentence in lead <==> !st.placeholderInserted;
    assert PlaceholderSentence in withKw <==> !st.placeholderInserted;
  }

  // ---------------------------------------------------------------------
  // The draft
  // ---------------------------------------------------------------------

  /**
   * The paragraphs `_generate_sections` has produced after its first `k`
   * sections, the state they leave and the summary handed to section `k`.
   */
  function Drafted(q: Request, terms: seq<string>, bullets: seq<string>, st: Progress,
                   sections: seq<OutlineSection>, b: Briefing, k: nat): (seq<string>, Progress, string)
    requires k <= |sections|
    decreases k, 0
  {
    if k == 0 then ([], st, "")
    else
      var c := Section(q, terms, bullets, st, sections, b, k - 1);
      (Drafted(q, terms, bullets, st, sections, b, k - 1).0 + [c.text], c.progress, c.summary)
  }

  /** Section `k`, composed in the state and after the summary the sections before it left. */
  function Section(q: Request, terms: seq<string>, bullets: seq<string>, st: Progress,
                   sections: seq<OutlineSection>, b: Briefing, k: nat): Composed
    requires k < |sections|
    decreases k, 1
  {
    var d := Drafted(q, terms, bullets, st, sections, b, k);
    ComposedSection(q, terms, bullets, d.1, sections, b, k, d.2)
  }

  /** The first `k` sections drafted leave these paragraphs, this state and this summary. */
  ghost predicate DraftedAs(q: Request, terms: seq<string>, bullets: seq<string>, st: Progress,
                            sections: seq<OutlineSection>, b: Briefing, k: nat,
                            paragraphs: seq<string>, now: Progress, previous: string) {
    k <= |sections| && Drafted(q, terms, bullets, st, sections, b, k) == (paragraphs, now, previous)
  }

  /** `_generate_sections` over the whole outline returns this draft and leaves this state. */
  ghost predicate Drafts(q: Request, terms: seq<string>, bullets: seq<string>, st: Progress,
                         sections: seq<OutlineSection>, b: Briefing, draft: string, now: Progress) {
    var d := Drafted(q, terms, bullets, st, sections, b, |sections|);
    draft == Join("\n\n", d.0) && now == d.1
  }

  lemma DraftedStart(q: Request, terms: seq<string>, bullets: seq<string>, st: Progress,
                     sections: seq<OutlineSection>, b: Briefing)
    ensures DraftedAs(q, terms, bullets, st, sections, b, 0, [], st, "")
  {
  }

  /** One more section: its paragraph is appended and its state and summary are handed on. */
  lemma DraftedStep(q: Request, terms: seq<string>, bullets: seq<string>, st: Progress,
                    sections: seq<OutlineSection>, b: Briefing, k: nat,
                    paragraphs: seq<string>, now: Progress, previous: string, c: Composed)
    requires k < |sections|
    requires DraftedAs(q, terms, bullets, st, sections, b, k, paragraphs, now, previous)
    requires ComposedSection(q, terms, bullets, now, sections, b, k, previous) == c
    ensures DraftedAs(q, terms, bullets, st, sections, b, k + 1, paragraphs + [c.text], c.progress, c.summary)
  {
    assert Section(q, terms, bullets, st, sections, b, k) == c;
  }

  /** With all sections drafted the draft is their paragraphs joined by blank lines. */
  lemma DraftedAll(q: Request, terms: seq<string>, bullets: seq<string>, st: Progress,
                   sections: seq<OutlineSection>, b: Briefing,
                   paragraphs: seq<string>, now: Progress, previous: string)
    requires DraftedAs(q, terms, bullets, st, sections, b, |sections|, paragraphs, now, previous)
    ensures Drafts(q, terms, bullets, st, sections, b, Join("\n\n", paragraphs), now)
  {
  }

  /** Paragraph `j` opens with the heading of section `j`. */
  predicate Headed(ps: seq<string>, sections: seq<OutlineSection>) {
    |ps| <= |sections| &&
    forall j :: 0 <= j < |ps| ==> StartsWith(ps[j], SectionHeading(sections[j]))
  }

  lemma HeadedAppend(ps: seq<string>, x: string, sections: seq<OutlineSection>)
    requires Headed(ps, sections) && |ps| < |sections| && StartsWith(x, SectionHeading(sections[|ps|]))
    ensures Headed(ps + [x], sections)
  {
    var ps' := ps + [x];
    forall j | 0 <= j < |ps'| ensures StartsWith(ps'[j], SectionHeading(sections[j])) {
      if j < |ps| {
        assert ps'[j] == ps[j];
      }
    }
  }

  /** `_compose_section` put together from its steps: the key terms, the sentences and the budgeted body. */
  lemma ComposedFrom(q: Request, terms: seq<string>, bullets: seq<string>, st: Progress,
                     sections: seq<OutlineSection>, section: OutlineSection, b: Briefing, index: nat, previous: string,
                     keyTerms: seq<string>, drawn: nat, sentences: seq<string>, body: string, pos: nat)
    requires index < |sections| && section == sections[index]
    requires keyTerms == Taken(terms, st.termPos, 2) && drawn == Advanced(terms, st.termPos, 2)
    requires sentences == SectionSentences(q, b, bullets, st.(termPos := drawn), sections, index, previous, keyTerms)
    requires (body, pos) == AdjustedSection(sentences, section.budget, ExpansionMessage(b.messages, q.topic),
                                            section.title, terms, drawn, Lower(q.topic), q.variant)
    ensures var lead := LeadSentences(q, b, bullets, sections, index, previous, keyTerms, st.placeholderInserted);
      ComposedSection(q, terms, bullets, st, sections, b, index, previous)
      == Composed(SectionHeading(section) + "\n" + body, SectionSummary(section, body),
                  Progress(pos, true, st.sourcesSentenceUsed || !q.sourcesAllowed, WithKeyword(q, lead, st.keywordsUsed).1))
  {
  }

  lemma ComposedHeading(q: Request, terms: seq<string>, bullets: seq<string>, st: Progress,
                        sections: seq<OutlineSection>, b: Briefing, index: nat, previous: string)
    requires index < |sections|
    ensures StartsWith(ComposedSection(q, terms, bullets, st, sections, b, index, previous).text, SectionHeading(sections[index]))
  {
    var c := ComposedSection(q, terms, bullets, st, sections, b, index, previous);
    StartsWithConcat(SectionHeading(sections[index]), c.text[|SectionHeading(sections[index])|..], SectionHeading(sections[index]));
    assert c.text == SectionHeading(sections[index]) + c.text[|SectionHeading(sections[index])|..];
  }

  /**
   * What holds after `k` drafted sections: the paragraphs, state and summary
   * they leave, one paragraph per section opening with its heading, and once
   * a section is drafted the placeholder inserted and the sources note used
   * when due.
   */
  ghost predicate Stage(q: Request, terms: seq<string>, bullets: seq<string>, st: Progress,
                        sections: seq<OutlineSection>, b: Briefing, k: nat,
                        paragraphs: seq<string>, now: Progress, previous: string) {
    DraftedAs(q, terms, bullets, st, sections, b, k, paragraphs, now, previous)
    && |paragraphs| == k && Headed(paragraphs, sections)
    && (k > 0 ==> now.placeholderInserted && (now.sourcesSentenceUsed <==> st.sourcesSentenceUsed || !q.sourcesAllowed))
  }

  /** The section after `k` drafted ones keeps the stage invariant. */
  lemma DraftedNext(q: Request, terms: seq<string>, bullets: seq<string>, st: Progress,
                    sections: seq<OutlineSection>, b: Briefing, k: nat,
                    paragraphs: seq<string>, now: Progress, previous: string)
    returns (text: string, next: Progress, summary: string)
    requires k < |sections| && Stage(q, terms, bullets, st, sections, b, k, paragraphs, now, previous)
    ensures Stage(q, terms, bullets, st, sections, b, k + 1, paragraphs + [text], next, summary)
  {
    var c := ComposedSection(q, terms, bullets, now, sections, b, k, previous);
    DraftedStep(q, terms, bullets, st, sections, b, k, paragraphs, now, previous, c);
    ComposedHeading(q, terms, bullets, now, sections, b, k, previous);
    ComposedSectionSpec(q, terms, bullets, now, sections, b, k, previous);
    HeadedAppend(paragraphs, c.text, sections);
    text, next, summary := c.text, c.progress, c.summary;
  }

  lemma {:induction false} DraftedStages(q: Request, terms: seq<string>, bullets: seq<string>, st: Progress,
                                         sections: seq<OutlineSection>, b: Briefing, k: nat)
    returns (paragraphs: seq<string>, now: Progress, previous: string)
    requires k <= |sections|
    ensures Stage(q, terms, bullets, st, sections, b, k, paragraphs, now, previous)
  {
    if k == 0 {
      DraftedStart(q, terms, bullets, st, sections, b);
      paragraphs, now, previous := [], st, "";
    } else {
      var ps, p, prev := DraftedStages(q, terms, bullets, st, sections, b, k - 1);
      var text;
      text, now, previous := DraftedNext(q, terms, bullets, st, sections, b, k - 1, ps, p, prev);
      paragraphs := ps + [text];
    }
  }

  /**
   * One paragraph per drafted section, each opening with its section's
   * heading; once a section is drafted the placeholder counts as inserted
   * and the sources note as used exactly when sources are not allowed or it
   * was used before.
   */
  lemma DraftedSpec(q: Request, terms: seq<string>, bullets: seq<string>, st: Progress,
                    sections: seq<OutlineSection>, b: Briefing, k: nat)
    returns (paragraphs: seq<string>, now: Progress, previous: string)
    requires k <= |sections|
    ensures DraftedAs(q, terms, bullets, st, sections, b, k, paragraphs, now, previous)
    ensures |paragraphs| == k && Headed(paragraphs, sections)
    ensures k > 0 ==> now.placeholderInserted && (now.sourcesSentenceUsed <==> st.sourcesSentenceUsed || !q.sourcesAllowed)
  {
    paragraphs, now, previous := DraftedStages(q, terms, bullets, st, sections, b, k);
  }

  /** A draft of at least one section has a heading marker, so it passes the rubric's heading check. */
  lemma DraftHasHeading(q: Request, terms: seq<string>, bullets: seq<string>, st: Progress,
                        sections: seq<OutlineSection>, b: Briefing, draft: string, now: Progress)
    requires sections != [] && Drafts(q, terms, bullets, st, sections, b, draft, now)
    ensures Contains(draft, "##")
  {
    var ps, _, _ := DraftedSpec(q, terms, bullets, st, sections, b, |sections|);
    HeadedHasMarker(ps, sections);
  }

  lemma HeadedHasMarker(ps: seq<string>, sections: seq<OutlineSection>)
    requires ps != [] && Headed(ps, sections)
    ensures Contains(Join("\n\n", ps), "##")
  {
    var h := SectionHeading(sections[0]);
    assert ps[0][..|h|] == h;
    assert ps[0][..2] == h[..2] == "##";
    ContainsAt(ps[0], "##", 0);
    JoinContains("\n\n", ps, 0, "##");
  }

  /** After a whole non-empty outline the placeholder counts as inserted and the sources note as used once due. */
  lemma DraftProgress(q: Request, terms: seq<string>, bullets: seq<string>, st: Progress,
                      sections: seq<OutlineSection>, b: Briefing, draft: string, now: Progress)
    requires sections != [] && Drafts(q, terms, bullets, st, sections, b, draft, now)
    ensures now.placeholderInserted && (now.sourcesSentenceUsed <==> st.sourcesSentenceUsed || !q.sourcesAllowed)
  {
    var _, _, _ := DraftedSpec(q, terms, bullets, st, sections, b, |sections|);
  }

  // ---------------------------------------------------------------------
  // Whole-text length with the filler terms drawn
  // ---------------------------------------------------------------------

  /** `_enforce_length`: the text and the cycle position; terms are drawn only for a short text. */
  function LengthEnforced(text: string, wordCount: int, variant: string, topic: string, terms: seq<string>, pos: nat): (string, nat)
    requires wordCount > 0
  {
    var n := CountWords(text);
    if n != 0 && n <= MaxWords(wordCount) && n < MinWords(wordCount) then
      (EnforcedLength(text, wordCount, variant, topic, Taken(terms, pos, 3)), Advanced(terms, pos, 3))
    else (EnforcedLength(text, wordCount, variant, topic, []), pos)
  }

  // ---------------------------------------------------------------------
  // Briefing and idea
  // ---------------------------------------------------------------------

  const NoNotesMessage := "[KLÄREN: Es wurden keine Notizen geliefert.]"
  const NoConstraints := "Keine zusätzlichen Vorgaben"

  /** The stripped non-blank lines of the notes, or the clarification placeholder. */
  function Messages(content: string): (r: seq<string>)
    ensures r != []
  {
    var lines := NonBlankStrips(SplitLines(content));
    if lines == [] then [NoNotesMessage] else lines
  }

  const GoalTail := "' prägnant entwickeln"

  function BriefingOf(q: Request, keyTerms: seq<string>): Briefing {
    Briefing(q.textType + " zu '" + q.topic + GoalTail, q.audience, q.tone, q.register, q.variant,
             if q.constraints != [] then q.constraints else NoConstraints,
             keyTerms, Messages(q.content), if q.seoKeywords != [] then Some(q.seoKeywords) else None)
  }

  /** The dictionary written to `briefing.json`, in its insertion order. */
  function BriefingValue(b: Briefing): Value {
    Obj([("goal", Str(b.goal)), ("audience", Str(b.audience)), ("tone", Str(b.tone)),
         ("register", Str(b.register)), ("variant", Str(b.variant)), ("constraints", Str(b.constraints)),
         ("key_terms", Arr(Strs(b.keyTerms))), ("messages", Arr(Strs(b.messages)))] +
        (if b.seoKeywords.Some? then [("seo_keywords", Arr(Strs(b.seoKeywords.value)))] else []))
  }

  predicate IsQuestionTrim(c: char) {
    c == '?' || c == ' '
  }

  const QuestionTrim: char -> bool := c => IsQuestionTrim(c)

  /** One bullet of `_improve_idea`: a question becomes a clarification marker. */
  function Bullet(cleaned: string): string {
    if '?' in cleaned then "[KLÄREN: " + StripBy(cleaned, QuestionTrim) + "]" else cleaned
  }

  function Bullets(sentences: seq<string>): seq<string> {
    if sentences == [] then []
    else
      var cleaned := Strip(sentences[0]);
      (if cleaned == [] then [] else [Bullet(cleaned)]) + Bullets(sentences[1..])
  }

  const NoIdeaBullet := "[KLÄREN: Inhaltliches Briefing ergänzen]"

  /** The bullets of `_improve_idea`: one per sentence of the notes, or the fallback. */
  function IdeaBullets(content: string): (r: seq<string>)
    ensures r != []
  {
    var bs := Bullets(SentencePieces(content));
    if bs == [] then [NoIdeaBullet] else bs
  }

  /** The sentences are already stripped and non-empty, so each gives its own bullet, in order. */
  lemma {:induction false} BulletsOfPieces(pieces: seq<string>)
    requires forall i :: 0 <= i < |pieces| ==> pieces[i] != [] && IsStripped(pieces[i])
    ensures Bullets(pieces) == seq(|pieces|, i requires 0 <= i < |pieces| => Bullet(pieces[i]))
  {
    if pieces != [] {
      BulletsOfPieces(pieces[1..]);
      StripOfStripped(pieces[0]);
    }
  }

  /** There is one bullet per sentence of the notes, or only the fallback when the notes have none. */
  lemma IdeaBulletsSpec(content: string)
    ensures var pieces := SentencePieces(content);
      (pieces == [] ==> IdeaBullets(content) == [NoIdeaBullet]) &&
      (pieces != [] ==> (|IdeaBullets(content)| == |pieces| &&
        forall i :: 0 <= i < |pieces| ==> IdeaBullets(content)[i] == Bullet(pieces[i])))
  {
    SentencePiecesShape(content);
    BulletsOfPieces(SentencePieces(content));
  }

  function IdeaLines(bullets: seq<string>): (r: seq<string>)
    ensures |r| == |bullets|
  {
    seq(|bullets|, i requires 0 <= i < |bullets| => "- " + bullets[i])
  }

  const IdeaHeaderLead := "Überarbeitete Idee für '"
  const SummaryLead := "Summary: Der Text adressiert "

  /** The text written to `idea.txt`. */
  function IdeaText(q: Request, b: Briefing, bullets: seq<string>): string {
    Join("\n", [IdeaHeaderLead + q.topic + "':", Join("\n", IdeaLines(bullets)), "",
                SummaryLead + b.audience + " und stärkt " + q.topic + " als " + q.textType + "."])
  }

  // ---------------------------------------------------------------------
  // Key terms
  // ---------------------------------------------------------------------

  /** The punctuation `_extract_key_terms` strips from a token. */
  predicate IsTermPunctuation(c: char) {
    c in ",.;:!?()[]{}\"'"
  }

  const TermPunctuation: char -> bool := c => IsTermPunctuation(c)

  function TermOf(token: string): string {
    Lower(StripBy(Strip(token), TermPunctuation))
  }

  /** `TermOf` as a value, for the generic lemmas about long images. */
  const TermOfToken: string -> string := t => TermOf(t)

  /** The set `_extract_key_terms` collects: long note tokens and long topic words. */
  function KeyTermSet(content: string, topic: string): set<string> {
    var tokens := Words(ReplaceChar(content, '\n', ' '));
    var pieces := Words(topic);
    (set i | 0 <= i < |tokens| && |TermOf(tokens[i])| > 4 :: TermOf(tokens[i])) +
    (set i | 0 <= i < |pieces| && |pieces[i]| > 4 :: Lower(Strip(pieces[i])))
  }

  /** Every key term is longer than four characters. */
  lemma KeyTermSetSpec(content: string, topic: string)
    ensures forall t :: t in KeyTermSet(content, topic) ==> |t| > 4
  {
    WordsAreWords(topic);
  }

  /** The images under `f` longer than four characters, in the order of `tokens`. */
  function LongImages(tokens: seq<string>, f: string -> string): seq<string> {
    if tokens == [] then []
    else
      var t := f(tokens[|tokens| - 1]);
      LongImages(tokens[..|tokens| - 1], f) + (if |t| > 4 then [t] else [])
  }

  lemma LongImagesStep(tokens: seq<string>, i: nat, f: string -> string)
    requires i < |tokens|
    ensures LongImages(tokens[..i + 1], f) == LongImages(tokens[..i], f) + (if |f(tokens[i])| > 4 then [f(tokens[i])] else [])
  {
    assert tokens[..i + 1][..i] == tokens[..i];
  }

  /** The terms of the long note tokens, in the order the tokens come. */
  function TokenTerms(tokens: seq<string>): seq<string> {
    LongImages(tokens, TermOfToken)
  }

  /** `[piece.strip().lower() for piece in topic.split() if len(piece) > 4]` */
  function TopicTerms(pieces: seq<string>): seq<string> {
    if pieces == [] then []
    else (if |pieces[0]| > 4 then [Lower(Strip(pieces[0]))] else []) + TopicTerms(pieces[1..])
  }

  /** `_extract_key_terms`: the collected terms in ascending order. */
  function KeyTerms(content: string, topic: string): seq<string> {
    SortedSet(TokenTerms(Words(ReplaceChar(content, '\n', ' '))) + TopicTerms(Words(topic)))
  }

  /** The terms `_normalize_briefing` caches: the key terms, or the lowered topic when there are none. */
  function BriefingTerms(content: string, topic: string): (r: seq<string>)
    ensures r != []
  {
    var k := KeyTerms(content, topic);
    if k == [] then [Lower(topic)] else k
  }

  lemma {:induction false} LongImagesElems(tokens: seq<string>, f: string -> string)
    ensures Elems(LongImages(tokens, f)) == set i | 0 <= i < |tokens| && |f(tokens[i])| > 4 :: f(tokens[i])
  {
    if tokens != [] {
      var n := |tokens| - 1;
      var init := tokens[..n];
      LongImagesElems(init, f);
      var t := f(tokens[n]);
      ElemsConcat(LongImages(init, f), if |t| > 4 then [t] else []);
      var s := set i | 0 <= i < |tokens| && |f(tokens[i])| > 4 :: f(tokens[i]);
      var s' := set i | 0 <= i < |init| && |f(init[i])| > 4 :: f(init[i]);
      assert s == s' + (if |t| > 4 then {t} else {}) by {
        forall y | y in s ensures y in s' || (|t| > 4 && y == t) {
          var i :| 0 <= i < |tokens| && |f(tokens[i])| > 4 && y == f(tokens[i]);
          if i < n {
            assert init[i] == tokens[i];
          }
        }
        forall y | y in s' ensures y in s {
          var i :| 0 <= i < |init| && |f(init[i])| > 4 && y == f(init[i]);
          assert init[i] == tokens[i];
        }
      }
    }
  }

  lemma {:induction false} TopicTermsElems(pieces: seq<string>)
    ensures Elems(TopicTerms(pieces)) == set i | 0 <= i < |pieces| && |pieces[i]| > 4 :: Lower(Strip(pieces[i]))
  {
    if pieces != [] {
      var rest := pieces[1..];
      TopicTermsElems(rest);
      ElemsConcat(if |pieces[0]| > 4 then [Lower(Strip(pieces[0]))] else [], TopicTerms(rest));
      assert forall i :: 0 <= i < |rest| ==> rest[i] == pieces[i + 1];
      var s := set i | 0 <= i < |pieces| && |pieces[i]| > 4 :: Lower(Strip(pieces[i]));
      var s' := set i | 0 <= i < |rest| && |rest[i]| > 4 :: Lower(Strip(rest[i]));
      forall y | y in s ensures y in Elems(TopicTerms(pieces)) {
        var i :| 0 <= i < |pieces| && |pieces[i]| > 4 && y == Lower(Strip(pieces[i]));
        if i > 0 {
          assert y in s';
        }
      }
    }
  }

  /**
   * The key terms are sorted without repeats and are exactly the terms the
   * loop collects, each longer than four characters.
   */
  lemma KeyTermsSpec(content: string, topic: string)
    ensures StrictlySorted(KeyTerms(content, topic))
    ensures Elems(KeyTerms(content, topic)) == KeyTermSet(content, topic)
    ensures forall i :: 0 <= i < |KeyTerms(content, topic)| ==> |KeyTerms(content, topic)[i]| > 4
  {
    var tokens := Words(ReplaceChar(content, '\n', ' '));
    var all := TokenTerms(tokens) + TopicTerms(Words(topic));
    SortedSetCorrect(all);
    ElemsConcat(TokenTerms(tokens), TopicTerms(Words(topic)));
    LongImagesElems(tokens, TermOfToken);
    TopicTermsElems(Words(topic));
    KeyTermSetSpec(content, topic);
    forall i | 0 <= i < |KeyTerms(content, topic)| ensures |KeyTerms(content, topic)[i]| > 4 {
      assert KeyTerms(content, topic)[i] in Elems(KeyTerms(content, topic));
    }
  }

  // ---------------------------------------------------------------------
  // The rubric fix step
  // ---------------------------------------------------------------------

  const HeadingsWord := "Zwischenüberschriften"
  const KeywordFixTail := " unterstreicht den thematischen Fokus."
  const ClosingFix := "Ein kompaktes Fazit bündelt den Nutzen."

  /** One issue's fix in `_apply_text_type_fix`, dispatched on the words the issue contains. */
  function FixedBy(text: string, issue: string, register: string, topic: string): string {
    if Contains(issue, "SEO-Keyword") then
      match KeywordOfIssue(issue)
      case Some(k) => text + "\n\n" + k + KeywordFixTail
      case None => text
    else if Contains(issue, HeadingsWord) then EnsuredHeadings(text)
    else if Contains(issue, "CTA") then Strip(text) + "\n\n" + CtaSentence(register, topic)
    else if Contains(issue, "Register") then ApplyRegister(register, text)
    else if Contains(issue, "Abschluss") then
      Strip(text) + "\n\n" + ClosingFix + " " + CtaSentence(register, topic)
    else text
  }

  /**
   * The similarity gate of `_apply_text_type_fix` and `run`: a revision
   * that strays too far from the original is blended back into it.
   */
  function Gated(original: string, revised: string, minJaccard: real, minRatio: real, ratio: real, variant: string): string {
    if SimilarEnough(original, revised, minJaccard, minRatio, ratio) then revised
    else EnsureVariant(variant, Join(" ", BlendSentences(SplitSentences(original), SplitSentences(revised))))
  }

  /** The keyword a keyword issue names, lowered, as the fix marks it used. */
  function FixKeyword(issue: string): set<string> {
    if Contains(issue, "SEO-Keyword") && KeywordOfIssue(issue).Some? then {Lower(KeywordOfIssue(issue).value)} else {}
  }

  /** The fixes of all issues, applied in order. */
  function FixedAll(text: string, issues: seq<string>, register: string, topic: string): string {
    if issues == [] then text else FixedBy(FixedAll(text, issues[..|issues| - 1], register, topic), issues[|issues| - 1], register, topic)
  }

  function FixKeywords(issues: seq<string>): set<string> {
    if issues == [] then {} else FixKeywords(issues[..|issues| - 1]) + FixKeyword(issues[|issues| - 1])
  }

  lemma KeywordIssueNamesItself(k: string)
    ensures Contains(KeywordIssue(k), "SEO-Keyword")
  {
    StartsWithConcat(KeywordIssuePrefix, k, "SEO-Keyword");
    StartsWithConcat(KeywordIssuePrefix + k, KeywordIssueSuffix, "SEO-Keyword");
  }

  /** A keyword issue's fix appends a sentence naming the keyword and marks it used. */
  lemma FixedByKeyword(text: string, register: string, topic: string, k: string)
    ensures Contains(Lower(FixedBy(text, KeywordIssue(k), register, topic)), Lower(k))
    ensures FixKeyword(KeywordIssue(k)) == {Lower(k)}
  {
    KeywordIssueNamesItself(k);
    KeywordOfIssueRoundTrip(k);
    var tail := KeywordFixTail;
    var t := text + "\n\n" + k + tail;
    assert FixedBy(text, KeywordIssue(k), register, topic) == t;
    LowerConcat((text + "\n\n") + k, tail);
    LowerConcat(text + "\n\n", k);
    ContainsSelf(Lower(k));
    ContainsRight(Lower(text + "\n\n"), Lower(k), Lower(k));
    ContainsLeft(Lower(text + "\n\n") + Lower(k), Lower(tail), Lower(k));
  }

  /** The heading issue is routed to the heading fix. */
  lemma HeadingIssueRouting()
    ensures !Contains(HeadingIssue, "SEO-Keyword") && Contains(HeadingIssue, "Zwischenüberschriften")
  {
    HeadingIssueNotKeyword();
    HeadingIssueNamesHeadings();
  }

  lemma HeadingIssueNotKeyword()
    ensures !Contains(HeadingIssue, "SEO-Keyword")
  {
    assert 'K' !in HeadingIssue;
    ContainsHasChar(HeadingIssue, "SEO-Keyword", 'K');
  }

  lemma HeadingIssueNamesHeadings()
    ensures Contains(HeadingIssue, "Zwischenüberschriften")
  {
    var name := HeadingsWord;
    assert HeadingIssue == name + " fehlen.";
    assert StartsWith(name, name);
    ContainsLeft(name, " fehlen.", name);
  }

  /** The CTA issues are routed to the call to action. */
  lemma DuCtaIssueRouting()
    ensures !Contains(DuCtaIssue, "SEO-Keyword") && !Contains(DuCtaIssue, "Zwischenüberschriften") && Contains(DuCtaIssue, "CTA")
  {
    assert 'K' !in DuCtaIssue && 'Z' !in DuCtaIssue;
    ContainsHasChar(DuCtaIssue, "SEO-Keyword", 'K');
    ContainsHasChar(DuCtaIssue, HeadingsWord, 'Z');
  }

  lemma SieCtaIssueRouting()
    ensures !Contains(SieCtaIssue, "SEO-Keyword") && !Contains(SieCtaIssue, "Zwischenüberschriften") && Contains(SieCtaIssue, "CTA")
  {
    assert 'K' !in SieCtaIssue && 'Z' !in SieCtaIssue;
    ContainsHasChar(SieCtaIssue, "SEO-Keyword", 'K');
    ContainsHasChar(SieCtaIssue, HeadingsWord, 'Z');
  }

  /** An issue routed to the heading fix leaves a heading marker. */
  lemma FixedByHeading(text: string, issue: string, register: string, topic: string)
    requires !Contains(issue, "SEO-Keyword") && Contains(issue, "Zwischenüberschriften")
    ensures Contains(FixedBy(text, issue, register, topic), "##")
  {
    EnsuredHeadingsMarked(text);
  }

  /** An issue routed to the CTA fix appends the call to action of the register, which the check then finds. */
  lemma FixedByCta(text: string, issue: string, register: string, topic: string)
    requires !Contains(issue, "SEO-Keyword") && !Contains(issue, "Zwischenüberschriften") && Contains(issue, "CTA")
    ensures Lower(register) == "du" ==> Contains(FixedBy(text, issue, register, topic), "Nutze")
    ensures Lower(register) != "du" ==> Contains(FixedBy(text, issue, register, topic), "Nutzen Sie")
  {
    var cta := CtaSentence(register, topic);
    CtaSatisfiesRubric(register, topic);
    if Lower(register) == "du" {
      ContainsRight(Strip(text) + "\n\n", cta, "Nutze");
    } else {
      ContainsRight(Strip(text) + "\n\n", cta, "Nutzen Sie");
    }
  }

  // ---------------------------------------------------------------------
  // The run's artifacts
  // ---------------------------------------------------------------------

  /** What a file receives: text, or a JSON document before encoding. */
  datatype Content = Text(text: string) | Data(value: Value)

  /** The files `run` writes; `FileName` gives each one's name. */
  datatype File =
    | BriefingJson | IdeaTxt | OutlineTxt | IterationTxt(round: nat) | CurrentText | ReflectionTxt(round: nat)
    | MetadataJson | RunLog | LlmLog

  /** The name of a file in its directory; rounds are numbered with two digits. */
  function FileName(f: File): string {
    match f
    case BriefingJson => "briefing.json"
    case IdeaTxt => "idea.txt"
    case OutlineTxt => "outline.txt"
    case IterationTxt(round) => "iteration_" + Pad2(round) + ".txt"
    case CurrentText => "current_text.txt"
    case ReflectionTxt(round) => "reflection_" + Pad2(round) + ".txt"
    case MetadataJson => "metadata.json"
    case RunLog => "run.log"
    case LlmLog => "llm.log"
  }

  /** One file written: its directory, which file it is and its content. */
  datatype Artifact = Artifact(dir: string, file: File, content: Content)

  /** What `_write_text` leaves in a file: the stripped text and a final newline. */
  function TextFile(dir: string, file: File, text: string): Artifact {
    Artifact(dir, file, Text(Strip(text) + "\n"))
  }

  /** The names of the files written, in order. */
  function Files(arts: seq<Artifact>): (r: seq<File>)
    ensures |r| == |arts|
  {
    if arts == [] then [] else Files(arts[..|arts| - 1]) + [arts[|arts| - 1].file]
  }

  /** Three files written one after the other. */
  lemma WrittenThree(w: seq<Artifact>, a: Artifact, b: Artifact, c: Artifact)
    ensures w + [a] + [b] + [c] == w + [a, b, c]
  {
    AppendAssoc(w, [a], [b]);
    AppendAssoc(w + [a, b], [], [c]);
    assert [a] + [b] == [a, b];
    AppendAssoc(w, [a, b], [c]);
  }

  lemma {:induction false} FilesAppend(a: seq<Artifact>, b: seq<Artifact>)
    ensures Files(a + b) == Files(a) + Files(b)
  {
    if b == [] {
      assert a + b == a;
    } else {
      FilesAppend(a, b[..|b| - 1]);
      assert (a + b)[..|a + b| - 1] == a + b[..|b| - 1];
    }
  }

  /** The first four files of `run`, one step after the other. */
  const StartFiles := [BriefingJson, IdeaTxt, OutlineTxt, IterationTxt(0)]

  lemma StartFilesInTurn()
    ensures [BriefingJson] + [IdeaTxt] + [OutlineTxt, IterationTxt(0)] == StartFiles
  {
  }

  /** The start of `run`: its first four files, one step after the other, then the rest. */
  lemma PreparedFiles(w0: seq<Artifact>, w3: seq<Artifact>, w: seq<Artifact>, fixed: bool, iterations: nat)
    requires Files(w3) == Files(w0) + [BriefingJson] + [IdeaTxt] + [OutlineTxt, IterationTxt(0)]
    requires Files(w) == Files(w3) + (DraftFiles + RubricOnFiles(fixed, iterations))
    ensures Files(w) == Files(w0) + RunFiles(fixed, iterations)
  {
    AppendAssoc(Files(w0), [BriefingJson], [IdeaTxt]);
    AppendAssoc(Files(w0), [BriefingJson] + [IdeaTxt], [OutlineTxt, IterationTxt(0)]);
    StartFilesInTurn();
    AppendAssoc(Files(w0), StartFiles, DraftFiles + RubricOnFiles(fixed, iterations));
    AppendAssoc(StartFiles, DraftFiles, RubricOnFiles(fixed, iterations));
  }

  /** The files of two artifacts and of three. */
  lemma FilesOfTwo(a: Artifact, b: Artifact)
    ensures Files([a, b]) == [a.file, b.file]
  {
    assert [a, b][..1] == [a];
    assert [a][..0] == [];
  }

  lemma FilesOfThree(a: Artifact, b: Artifact, c: Artifact)
    ensures Files([a, b, c]) == [a.file, b.file, c.file]
  {
    assert [a, b, c][..2] == [a, b];
    FilesOfTwo(a, b);
  }

  /** The files of one revision round, numbered one past the round. */
  function RoundFiles(iteration: nat): seq<File> {
    [IterationTxt(iteration + 1), CurrentText, ReflectionTxt(iteration + 1)]
  }

  function RevisionFiles(n: nat): (r: seq<File>)
    ensures |r| == 3 * n
  {
    if n == 0 then [] else RevisionFiles(n - 1) + RoundFiles(n)
  }

  /** The files `run` writes, in order: the fix writes the draft again only when the rubric found issues. */
  function RunFiles(fixed: bool, iterations: nat): seq<File> {
    StartFiles + DraftFiles + RubricOnFiles(fixed, iterations)
  }

  /** The two files that receive every new version of the draft. */
  const DraftFiles := [CurrentText, IterationTxt(1)]

  /** The files `run` writes once the first draft exists: the fix, the rounds and the closing files. */
  function RubricOnFiles(fixed: bool, iterations: nat): seq<File> {
    (if fixed then DraftFiles else []) + RevisionFiles(iterations) + [MetadataJson, RunLog, LlmLog]
  }

  /** Exactly `iterations` revision rounds, each writing three files. */
  lemma RevisionFilesSpec(n: nat)
    ensures |RevisionFiles(n)| == 3 * n
    ensures forall i :: 1 <= i <= n ==> RevisionFiles(n)[3 * (i - 1)..3 * i] == RoundFiles(i)
  {
    forall i | 1 <= i <= n ensures RevisionFiles(n)[3 * (i - 1)..3 * i] == RoundFiles(i) {
      RoundOf(n, i);
    }
  }

  /** Round `i` of `n` sits at positions `3 * (i - 1)` to `3 * i`. */
  lemma {:induction false} RoundOf(n: nat, i: nat)
    requires 1 <= i <= n
    ensures RevisionFiles(n)[3 * (i - 1)..3 * i] == RoundFiles(i)
  {
    var front := RevisionFiles(n - 1);
    if i == n {
      FilesSliceRight(front, RoundFiles(n));
    } else {
      RoundOf(n - 1, i);
      FilesSliceLeft(front, RoundFiles(n), 3 * (i - 1), 3 * i);
    }
  }

  lemma FilesSliceLeft(a: seq<File>, b: seq<File>, lo: nat, hi: nat)
    requires lo <= hi <= |a|
    ensures (a + b)[lo..hi] == a[lo..hi]
  {
  }

  lemma FilesSliceRight(a: seq<File>, b: seq<File>)
    ensures (a + b)[|a|..|a| + |b|] == b
  {
  }

  const StartedLine := "Automatikmodus gestartet"
  const BriefingLine := "Briefing normalisiert"
  const IdeaLine := "Idee überarbeitet"
  const OutlineLine := "Outline generiert und bereinigt"
  const SectionsLine := "Abschnitte ausformuliert"
  const RubricPassedLine := "Texttypprüfung bestanden"
  const RubricFixedLine := "Texttypprüfung mit Nachbesserungen abgeschlossen"
  const FinishedLine := "Automatikmodus erfolgreich abgeschlossen"

  /** The lines of `run.log`. */
  function RunLogLines(topic: string, wordCount: int, rubricPassed: bool, iterations: nat): seq<string> {
    [StartedLine, "Thema: " + topic, "Zielwortzahl: " + IntToString(wordCount),
     BriefingLine, IdeaLine, OutlineLine, SectionsLine,
     if rubricPassed then RubricPassedLine else RubricFixedLine] +
    RevisionLines(iterations) + [FinishedLine]
  }

  /** One `run.log` line per revision round. */
  function RevisionLines(n: nat): (r: seq<string>)
    ensures |r| == n
  {
    if n == 0 then [] else RevisionLines(n - 1) + [RevisionLine(n)]
  }

  function RevisionLine(round: nat): string {
    "Revision " + Pad2(round) + " abgeschlossen"
  }

  /** The dictionary written to `metadata.json`. */
  function MetadataValue(q: Request, text: string, rubricPassed: bool, provider: string, systemPrompt: string): Value {
    Obj([("title", Str(q.topic)), ("audience", Str(q.audience)), ("tone", Str(q.tone)),
         ("register", Str(q.register)), ("variant", Str(q.variant)), ("keywords", Arr(Strs(q.seoKeywords))),
         ("final_word_count", Int(CountWords(text))), ("rubric_passed", Bool(rubricPassed)),
         ("sources_allowed", Bool(q.sourcesAllowed)), ("llm_provider", Str(provider)),
         ("system_prompt", Str(systemPrompt))])
  }

  function SectionValue(s: OutlineSection): Value {
    Obj([("number", Str(s.number)), ("title", Str(s.title)), ("role", Str(s.role)),
         ("budget", Int(s.budget)), ("deliverable", Str(s.deliverable))])
  }

  function SectionValues(sections: seq<OutlineSection>): (r: seq<Value>)
    ensures |r| == |sections|
  {
    seq(|sections|, i requires 0 <= i < |sections| => SectionValue(sections[i]))
  }

  /** The modelled part of the `llm.log` entry: everything but the prompt texts. */
  function LlmLogValue(q: Request, provider: string, parameters: Value, systemPrompt: string, b: Briefing,
                       sections: seq<OutlineSection>): Value {
    Obj([("provider", Str(provider)), ("parameters", parameters), ("system_prompt", Str(systemPrompt)),
         ("topic", Str(q.topic)), ("word_count", Int(q.wordCount)),
         ("audience", Str(q.audience)), ("text_type", Str(q.textType)), ("messages", Arr(Strs(b.messages))),
         ("outline", Arr(SectionValues(sections)))])
  }
}
