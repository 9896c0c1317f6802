/**
 * The writer agent's text utilities (`wordsmith/agent.py`) that depend only
 * on their arguments: the language-variant spelling, the register swap,
 * the text-type rubric and its keyword issues, heading insertion, the
 * similarity gate, the sentence merge, the revision de-duplication, the
 * reflection notes, and the word budgets of sections and of the whole text.
 */
module Drafting {
  import opened Common
  import opened Strings
  import opened Numerals
  import opened WordSplit

  // ---------------------------------------------------------------------
  // Language variant
  // ---------------------------------------------------------------------

  /** Austrian and Swiss German write `ß` as `ss`. */
  const DoubleSVariants: set<string> := {"DE-AT", "DE-CH"}

  predicate WritesDoubleS(variant: string) {
    Upper(variant) in DoubleSVariants
  }

  /** `_ensure_variant` */
  function EnsureVariant(variant: string, text: string): string {
    if WritesDoubleS(variant) then ReplaceAll(text, "ß", "ss") else text
  }

  /** The words of a text after `_ensure_variant`, given its words before. */
  function VariantWords(variant: string, ws: seq<string>): (r: seq<string>)
    ensures |r| == |ws|
  {
    if WritesDoubleS(variant) then ReplaceEach(ws, 'ß', "ss") else ws
  }

  lemma {:induction false} ReplaceAllAbsent(s: string, pattern: string, replacement: string)
    requires pattern != [] && !Contains(s, pattern)
    ensures ReplaceAll(s, pattern, replacement) == s
    decreases |s|
  {
    if s != [] {
      ReplaceAllAbsent(s[1..], pattern, replacement);
      assert [s[0]] + s[1..] == s;
    }
  }

  lemma {:induction false} ContainsChar(s: string, c: char)
    ensures Contains(s, [c]) <==> c in s
    decreases |s|
  {
    if s != [] {
      ContainsChar(s[1..], c);
      assert c in s <==> s[0] == c || c in s[1..];
    }
  }

  lemma {:induction false} ReplaceRemovesChar(s: string, c: char, r: string)
    requires c !in r
    ensures c !in ReplaceAll(s, [c], r)
    decreases |s|
  {
    if s != [] {
      if StartsWith(s, [c]) {
        ReplaceRemovesChar(s[|[c]|..], c, r);
      } else {
        assert s[..1] == [s[0]];
        ReplaceRemovesChar(s[1..], c, r);
      }
    }
  }

  /**
   * For Austria and Switzerland no `ß` remains and applying the rule again
   * changes nothing; for every variant the text keeps its word count, each
   * word spelled as the rule says.
   */
  lemma EnsureVariantSpec(variant: string, text: string)
    ensures WritesDoubleS(variant) ==> 'ß' !in EnsureVariant(variant, text)
    ensures EnsureVariant(variant, EnsureVariant(variant, text)) == EnsureVariant(variant, text)
    ensures Words(EnsureVariant(variant, text)) == VariantWords(variant, Words(text))
    ensures CountWords(EnsureVariant(variant, text)) == CountWords(text)
  {
    if WritesDoubleS(variant) {
      var t := ReplaceAll(text, "ß", "ss");
      assert "ß" == ['ß'];
      ReplaceRemovesChar(text, 'ß', "ss");
      ContainsChar(t, 'ß');
      ReplaceAllAbsent(t, "ß", "ss");
      assert IsWord("ss");
      WordsOfReplace(text, 'ß', "ss");
    }
  }

  // ---------------------------------------------------------------------
  // Register
  // ---------------------------------------------------------------------

  /** `_apply_register`: swap the informal and the formal pronoun between spaces. */
  function ApplyRegister(register: string, text: string): string {
    if register == "Sie" then ReplaceAll(text, " du ", " Sie ") else ReplaceAll(text, " Sie ", " du ")
  }

  /** A text without the pronoun to replace is left as it is. */
  lemma ApplyRegisterNoOp(register: string, text: string)
    ensures register == "Sie" && !Contains(text, " du ") ==> ApplyRegister(register, text) == text
    ensures register != "Sie" && !Contains(text, " Sie ") ==> ApplyRegister(register, text) == text
  {
    if register == "Sie" && !Contains(text, " du ") {
      ReplaceAllAbsent(text, " du ", " Sie ");
    }
    if register != "Sie" && !Contains(text, " Sie ") {
      ReplaceAllAbsent(text, " Sie ", " du ");
    }
  }

  // ---------------------------------------------------------------------
  // The text-type rubric
  // ---------------------------------------------------------------------

  const HeadingIssue := "Zwischenüberschriften fehlen."
  const ClosingIssue := "Abschluss fehlt."
  const SieIssue := "Register 'Sie' verletzt."
  const DuIssue := "Register 'Du' verletzt."
  const SieCtaIssue := "CTA in Sie-Ansprache fehlt."
  const DuCtaIssue := "CTA in Du-Ansprache fehlt."
  const KeywordIssuePrefix := "SEO-Keyword '"
  const KeywordIssueSuffix := "' fehlt."

  function KeywordIssue(keyword: string): string {
    KeywordIssuePrefix + keyword + KeywordIssueSuffix
  }

  /** One issue per keyword, in order, whose lower-case form the lowered text lacks. */
  function MissingKeywords(keywords: seq<string>, lowered: string): seq<string> {
    if keywords == [] then []
    else
      (if !Contains(lowered, Lower(keywords[0])) then [KeywordIssue(keywords[0])] else []) +
      MissingKeywords(keywords[1..], lowered)
  }

  /** The structure and register checks of `_check_text_type`, which run before the keyword checks. */
  function RubricHead(text: string, register: string): (r: seq<string>)
    ensures forall m :: m in r ==> m in [HeadingIssue, ClosingIssue, SieIssue, DuIssue]
  {
    var lowered := Lower(text);
    (if !Contains(text, "##") then [HeadingIssue] else []) +
    (if !Contains(lowered, "fazit") && !Contains(lowered, "abschluss") then [ClosingIssue] else []) +
    (if register == "Sie" && Contains(lowered, " du ") then [SieIssue] else []) +
    (if register == "Du" && Contains(text, " Sie ") then [DuIssue] else [])
  }

  /** The call-to-action checks of `_check_text_type`, which run after the keyword checks. */
  function RubricTail(text: string, register: string): (r: seq<string>)
    ensures forall m :: m in r ==> m in [SieCtaIssue, DuCtaIssue]
  {
    (if register == "Sie" && !Contains(text, "Nutzen Sie") then [SieCtaIssue] else []) +
    (if Lower(register) == "du" && !Contains(text, "Nutze") then [DuCtaIssue] else [])
  }

  /** The issue list of `_check_text_type`, in the order the checks run. */
  function TextTypeIssues(text: string, register: string, keywords: seq<string>): seq<string> {
    RubricHead(text, register) + MissingKeywords(keywords, Lower(text)) + RubricTail(text, register)
  }

  /** `_check_text_type`: passed, and the issues found. */
  function CheckTextType(text: string, register: string, keywords: seq<string>): (r: (bool, seq<string>))
    ensures r.0 <==> r.1 == []
  {
    var issues := TextTypeIssues(text, register, keywords);
    (issues == [], issues)
  }

  /** `issue.split("'")[1]`, the keyword as the fix step reads it back from its issue. */
  function IssueKeywordAsWritten(issue: string): Option<string> {
    var parts := SplitOn(issue, '\'');
    if |parts| >= 2 then Some(parts[1]) else None
  }

  predicate IsKeywordIssue(issue: string) {
    |issue| >= |KeywordIssuePrefix| + |KeywordIssueSuffix| && StartsWith(issue, KeywordIssuePrefix) &&
    issue[|issue| - |KeywordIssueSuffix|..] == KeywordIssueSuffix
  }

  /** The keyword between the issue's fixed prefix and suffix, whatever characters it holds. */
  function KeywordOfIssue(issue: string): Option<string> {
    if IsKeywordIssue(issue) then Some(issue[|KeywordIssuePrefix|..|issue| - |KeywordIssueSuffix|])
    else IssueKeywordAsWritten(issue)
  }

  /** Reading a keyword back from its issue gives the keyword. */
  lemma KeywordOfIssueRoundTrip(k: string)
    ensures IsKeywordIssue(KeywordIssue(k))
    ensures KeywordOfIssue(KeywordIssue(k)) == Some(k)
  {
    var m := KeywordIssue(k);
    assert m[..|KeywordIssuePrefix|] == KeywordIssuePrefix;
    assert m[|m| - |KeywordIssueSuffix|..] == KeywordIssueSuffix;
    assert m[|KeywordIssuePrefix|..|m| - |KeywordIssueSuffix|] == k;
  }

  /** The reading as written agrees for a keyword without an apostrophe. */
  lemma IssueKeywordAsWrittenPlain(k: string)
    requires '\'' !in k
    ensures IssueKeywordAsWritten(KeywordIssue(k)) == Some(k)
  {
    var m := KeywordIssue(k);
    assert m == "SEO-Keyword " + ['\''] + (k + ['\''] + " fehlt.");
    assert '\'' !in "SEO-Keyword ";
    SplitOnAt("SEO-Keyword ", '\'', k + ['\''] + " fehlt.");
    SplitOnAt(k, '\'', " fehlt.");
  }

  /** A keyword with an apostrophe is cut short: "Rock'n'Roll" comes back as "Rock". */
  lemma IssueKeywordAsWrittenCut()
    ensures IssueKeywordAsWritten(KeywordIssue("Rock'n'Roll")) == Some("Rock")
  {
    var m := KeywordIssue("Rock'n'Roll");
    assert m == "SEO-Keyword " + ['\''] + ("Rock" + ['\''] + "n'Roll' fehlt.");
    assert '\'' !in "SEO-Keyword ";
    assert '\'' !in "Rock";
    SplitOnAt("SEO-Keyword ", '\'', "Rock" + ['\''] + "n'Roll' fehlt.");
    SplitOnAt("Rock", '\'', "n'Roll' fehlt.");
  }

  /** The two readings part ways on "Rock'n'Roll": the fix names and marks "Rock" as written. */
  lemma KeywordReadingsDiffer()
    ensures KeywordOfIssue(KeywordIssue("Rock'n'Roll")) == Some("Rock'n'Roll")
    ensures KeywordOfIssue(KeywordIssue("Rock'n'Roll")) != IssueKeywordAsWritten(KeywordIssue("Rock'n'Roll"))
  {
    KeywordOfIssueRoundTrip("Rock'n'Roll");
    IssueKeywordAsWrittenCut();
  }

  lemma KeywordIssueFirst(k: string)
    ensures KeywordIssue(k)[0] == 'S'
  {
  }

  lemma KeywordIssueInjective(a: string, b: string)
    requires KeywordIssue(a) == KeywordIssue(b)
    ensures a == b
  {
    KeywordOfIssueRoundTrip(a);
    KeywordOfIssueRoundTrip(b);
  }

  /** A keyword has an issue exactly when it is listed and its lower-case form is missing. */
  lemma {:induction false} MissingKeywordsIff(keywords: seq<string>, lowered: string)
    ensures forall k {:trigger KeywordIssue(k)} ::
      KeywordIssue(k) in MissingKeywords(keywords, lowered) <==> k in keywords && !Contains(lowered, Lower(k))
  {
    if keywords != [] {
      MissingKeywordsIff(keywords[1..], lowered);
      forall k ensures KeywordIssue(k) in MissingKeywords(keywords, lowered) <==> k in keywords && !Contains(lowered, Lower(k))
      {
        if KeywordIssue(k) == KeywordIssue(keywords[0]) {
          KeywordIssueInjective(k, keywords[0]);
        }
        assert k in keywords <==> k == keywords[0] || k in keywords[1..];
      }
    }
  }

  /** Every issue the keyword checks raise starts with the letter of the keyword issue. */
  lemma {:induction false} MissingKeywordsFirst(keywords: seq<string>, lowered: string)
    ensures forall m :: m in MissingKeywords(keywords, lowered) ==> m != [] && m[0] == 'S'
  {
    if keywords != [] {
      MissingKeywordsFirst(keywords[1..], lowered);
      KeywordIssueFirst(keywords[0]);
    }
  }

  /** Each rubric issue other than a keyword issue starts with a letter no keyword issue starts with. */
  lemma FixedIssuesFirst()
    ensures HeadingIssue[0] == 'Z' && ClosingIssue[0] == 'A' && SieIssue[0] == 'R' && DuIssue[0] == 'R'
    ensures SieCtaIssue[0] == 'C' && DuCtaIssue[0] == 'C'
  {
  }

  lemma NotKeywordIssues(x: string, ms: seq<string>)
    requires x != [] && x[0] != 'S'
    requires forall m :: m in ms ==> m != [] && m[0] == 'S'
    ensures x !in ms
  {
  }

  lemma RubricHeadSpec(text: string, register: string)
    ensures HeadingIssue in RubricHead(text, register) <==> !Contains(text, "##")
    ensures ClosingIssue in RubricHead(text, register) <==>
      !Contains(Lower(text), "fazit") && !Contains(Lower(text), "abschluss")
    ensures forall m :: m in RubricHead(text, register) ==> m != [] && m[0] != 'S'
  {
    FixedIssuesFirst();
  }

  lemma RubricTailSpec(text: string, register: string)
    ensures HeadingIssue !in RubricTail(text, register) && ClosingIssue !in RubricTail(text, register)
    ensures forall m :: m in RubricTail(text, register) ==> m != [] && m[0] != 'S'
  {
    FixedIssuesFirst();
  }

  /**
   * The rubric: missing headings are one issue, a missing closing is one
   * issue, and a keyword is reported exactly when its lower-case form is
   * absent from the lowered text.
   */
  lemma TextTypeIssuesSpec(text: string, register: string, keywords: seq<string>)
    ensures HeadingIssue in TextTypeIssues(text, register, keywords) <==> !Contains(text, "##")
    ensures ClosingIssue in TextTypeIssues(text, register, keywords) <==>
      !Contains(Lower(text), "fazit") && !Contains(Lower(text), "abschluss")
    ensures forall k :: k in keywords ==>
      (KeywordIssue(k) in TextTypeIssues(text, register, keywords) <==> !Contains(Lower(text), Lower(k)))
  {
    var lowered := Lower(text);
    var head := RubricHead(text, register);
    var missing := MissingKeywords(keywords, lowered);
    var tail := RubricTail(text, register);
    assert TextTypeIssues(text, register, keywords) == head + missing + tail;
    RubricHeadSpec(text, register);
    RubricTailSpec(text, register);
    MissingKeywordsIff(keywords, lowered);
    MissingKeywordsFirst(keywords, lowered);
    FixedIssuesFirst();
    NotKeywordIssues(HeadingIssue, missing);
    NotKeywordIssues(ClosingIssue, missing);
    forall k | k in keywords
      ensures KeywordIssue(k) in head + missing + tail <==> !Contains(lowered, Lower(k))
    {
      KeywordIssueFirst(k);
    }
  }

  // ---------------------------------------------------------------------
  // Headings
  // ---------------------------------------------------------------------

  /** An all-capitals line that is not yet a heading becomes a title-cased heading. */
  function HeadingFor(line: string): string {
    var stripped := Strip(line);
    if stripped != [] && !StartsWith(stripped, "#") && stripped == Upper(stripped) then "## " + Title(stripped)
    else line
  }

  predicate IsHeading(line: string) {
    StartsWith(Strip(line), "##")
  }

  const OverviewHeading := "## Überblick"

  function WithOverview(lines: seq<string>): seq<string> {
    if forall i :: 0 <= i < |lines| ==> !IsHeading(lines[i]) then [OverviewHeading] + lines else lines
  }

  /** `_ensure_headings` */
  function EnsuredHeadings(text: string): string {
    var lines := SplitLines(text);
    Join("\n", WithOverview(seq(|lines|, i requires 0 <= i < |lines| => HeadingFor(lines[i]))))
  }

  /** `_ensure_headings`, whose loop rewrites line by line. */
  method EnsureHeadings(text: string) returns (r: string)
    ensures r == EnsuredHeadings(text)
  {
    var lines := SplitLines(text);
    var enriched: seq<string> := [];
    for i := 0 to |lines|
      invariant |enriched| == i
      invariant forall k :: 0 <= k < i ==> enriched[k] == HeadingFor(lines[k])
    {
      var line := lines[i];
      var stripped := Strip(line);
      if stripped != [] && !StartsWith(stripped, "#") && stripped == Upper(stripped) {
        enriched := enriched + ["## " + Title(stripped)];
      } else {
        enriched := enriched + [line];
      }
    }
    MappedHeadings(lines, enriched);
    ghost var mapped := enriched;
    if forall k :: 0 <= k < |enriched| ==> !IsHeading(enriched[k]) {
      enriched := [OverviewHeading] + enriched;
    }
    assert enriched == WithOverview(mapped);
    r := Join("\n", enriched);
  }

  lemma MappedHeadings(lines: seq<string>, enriched: seq<string>)
    requires |enriched| == |lines|
    requires forall k :: 0 <= k < |lines| ==> enriched[k] == HeadingFor(lines[k])
    ensures enriched == seq(|lines|, i requires 0 <= i < |lines| => HeadingFor(lines[i]))
  {
  }

  lemma {:induction false} JoinContains(sep: string, parts: seq<string>, i: nat, sub: string)
    requires i < |parts| && Contains(parts[i], sub)
    ensures Contains(Join(sep, parts), sub)
  {
    if |parts| > 1 {
      if i == 0 {
        assert Join(sep, parts) == parts[0] + (sep + Join(sep, parts[1..]));
        ContainsLeft(parts[0], sep + Join(sep, parts[1..]), sub);
      } else {
        JoinContains(sep, parts[1..], i - 1, sub);
        assert Join(sep, parts) == (parts[0] + sep) + Join(sep, parts[1..]);
        ContainsRight(parts[0] + sep, Join(sep, parts[1..]), sub);
      }
    }
  }

  lemma StripContains(s: string, sub: string)
    requires Contains(Strip(s), sub)
    ensures Contains(s, sub)
  {
    var front, back := StripSplit(s);
    ContainsLeft(Strip(s), back, sub);
    ContainsRight(front, Strip(s) + back, sub);
    assert s == front + (Strip(s) + back);
  }

  /** After `_ensure_headings` the text has a heading marker, so the rubric's heading check passes. */
  lemma EnsuredHeadingsMarked(text: string)
    ensures Contains(EnsuredHeadings(text), "##")
    ensures HeadingIssue !in TextTypeIssues(EnsuredHeadings(text), "", [])
  {
    var lines := SplitLines(text);
    var enriched := seq(|lines|, i requires 0 <= i < |lines| => HeadingFor(lines[i]));
    var all := WithOverview(enriched);
    if forall i :: 0 <= i < |enriched| ==> !IsHeading(enriched[i]) {
      assert all[0] == "## Überblick";
      assert "## Überblick"[..2] == "##";
      JoinContains("\n", all, 0, "##");
    } else {
      var i :| 0 <= i < |enriched| && IsHeading(enriched[i]);
      assert all[i] == enriched[i];
      StripContains(enriched[i], "##");
      JoinContains("\n", all, i, "##");
    }
    TextTypeIssuesSpec(EnsuredHeadings(text), "", []);
  }

  // ---------------------------------------------------------------------
  // Similarity gate
  // ---------------------------------------------------------------------

  /** The lower-cased words of a text, as a set. */
  function TokenSet(s: string): set<string> {
    Lowers(Words(s))
  }

  /**
   * `_similar_enough`: the share of the original's tokens that the revision
   * keeps, and the sequence ratio of the two texts, which is given.
   */
  function SimilarEnough(original: string, revised: string, minJaccard: real, minRatio: real, ratio: real): bool {
    var o := TokenSet(original);
    var r := TokenSet(revised);
    if o == {} || r == {} then true
    else (|o * r| as real) / (Max(|o|, 1) as real) >= minJaccard && ratio >= minRatio
  }

  lemma TokenSetEmpty(s: string)
    ensures TokenSet(s) == {} <==> AllSpace(s)
  {
    NoWordsIffBlank(s);
    if Words(s) != [] {
      assert Lower(Words(s)[0]) in TokenSet(s);
    }
  }

  /**
   * A blank text on either side passes; otherwise the revision passes
   * exactly when it keeps at least `minJaccard` of the original's
   * lower-cased words and the ratio reaches `minRatio`.
   */
  lemma SimilarEnoughSpec(original: string, revised: string, minJaccard: real, minRatio: real, ratio: real)
    ensures AllSpace(original) || AllSpace(revised) ==> SimilarEnough(original, revised, minJaccard, minRatio, ratio)
    ensures !AllSpace(original) && !AllSpace(revised) ==>
      (SimilarEnough(original, revised, minJaccard, minRatio, ratio) <==>
        (|TokenSet(original) * TokenSet(revised)| as real) / (Max(|TokenSet(original)|, 1) as real) >= minJaccard && ratio >= minRatio)
  {
    TokenSetEmpty(original);
    TokenSetEmpty(revised);
  }

  /** A revision that keeps every token of the original passes the word test, so only the ratio decides. */
  lemma SimilarEnoughCovering(original: string, revised: string, minJaccard: real, minRatio: real, ratio: real)
    requires !AllSpace(original) && !AllSpace(revised) && TokenSet(original) <= TokenSet(revised) && minJaccard <= 1.0
    ensures SimilarEnough(original, revised, minJaccard, minRatio, ratio) <==> ratio >= minRatio
  {
    TokenSetEmpty(original);
    TokenSetEmpty(revised);
    var o := TokenSet(original);
    var r := TokenSet(revised);
    assert o * r == o;
    assert (|o| as real) / (|o| as real) == 1.0;
  }

  // ---------------------------------------------------------------------
  // Sentence merge
  // ---------------------------------------------------------------------

  /** The base sentences followed by each new, non-empty sentence not already present. */
  function BlendSentences(base: seq<string>, news: seq<string>): seq<string> {
    if news == [] then base
    else
      var combined := BlendSentences(base, news[..|news| - 1]);
      var s := news[|news| - 1];
      if s != [] && s !in combined then combined + [s] else combined
  }

  /** `_blend_with_original`, whose loop appends the revision's new sentences. */
  method BlendWithOriginal(original: string, revised: string, variant: string) returns (blended: string)
    ensures blended == EnsureVariant(variant, Join(" ", BlendSentences(SplitSentences(original), SplitSentences(revised))))
  {
    var baseSentences := SplitSentences(original);
    var newSentences := SplitSentences(revised);
    var combined := baseSentences;
    for j := 0 to |newSentences|
      invariant combined == BlendSentences(baseSentences, newSentences[..j])
    {
      assert newSentences[..j + 1][..j] == newSentences[..j];
      var sentence := newSentences[j];
      if sentence != [] && sentence !in combined {
        combined := combined + [sentence];
      }
    }
    assert newSentences[..|newSentences|] == newSentences;
    blended := EnsureVariant(variant, Join(" ", combined));
  }

  /**
   * The original sentences stay a prefix, every non-empty revision sentence
   * ends up in the result, nothing appended repeats an earlier sentence, and
   * nothing else is added.
   */
  lemma {:induction false} BlendSentencesSpec(base: seq<string>, news: seq<string>)
    ensures |BlendSentences(base, news)| >= |base| && BlendSentences(base, news)[..|base|] == base
    ensures forall s :: s in news && s != [] ==> s in BlendSentences(base, news)
    ensures forall i, j :: 0 <= i < j < |BlendSentences(base, news)| && |base| <= j ==>
      BlendSentences(base, news)[i] != BlendSentences(base, news)[j]
    ensures forall s :: s in BlendSentences(base, news) ==> s in base || s in news
  {
    if news != [] {
      var init := news[..|news| - 1];
      BlendSentencesSpec(base, init);
      var c := BlendSentences(base, init);
      var s := news[|news| - 1];
      assert news == init + [s];
      if s != [] && s !in c {
        var r := c + [s];
        assert r[..|base|] == c[..|base|];
        forall i, j | 0 <= i < j < |r| && |base| <= j ensures r[i] != r[j] {
          if j == |c| {
            assert r[i] == c[i];
          }
        }
      }
    }
  }

  /** The merged text splits back into the merged sentences. */
  lemma BlendResplits(original: string, revised: string)
    ensures var combined := BlendSentences(SplitSentences(original), SplitSentences(revised));
      SplitSentences(Join(" ", combined)) == combined
  {
    var base := SplitSentences(original);
    var news := SplitSentences(revised);
    var combined := BlendSentences(base, news);
    SplitSentencesShape(original);
    SplitSentencesShape(revised);
    BlendSentencesSpec(base, news);
    forall i | 0 <= i < |combined| ensures IsSentence(combined[i]) {
      assert combined[i] in combined;
    }
    SentencesRoundTrip(combined);
  }

  // ---------------------------------------------------------------------
  // Revision
  // ---------------------------------------------------------------------

  const RevisionNoteMiddle := " schärft Klarheit, Flow und Terminologie für "

  function RevisionNote(iteration: int, audience: string): string {
    "Revision " + IntToString(iteration) + RevisionNoteMiddle + audience + "."
  }

  /** `_revise_draft`: sentences without case-insensitive repeats, the note, the register, the variant. */
  function Revised(text: string, iteration: int, audience: string, register: string, variant: string): string {
    var unique := DedupFrom(SplitSentences(text), {});
    EnsureVariant(variant, ApplyRegister(register, Join(" ", unique) + " " + RevisionNote(iteration, audience)))
  }

  /** `_revise_draft`, whose loop keeps a `seen` set of lower-cased sentences. */
  method ReviseDraft(text: string, iteration: int, audience: string, register: string, variant: string)
    returns (revised: string)
    ensures revised == Revised(text, iteration, audience, register, variant)
  {
    var sentences := SplitSentences(text);
    var uniqueSentences: seq<string> := [];
    var seen: set<string> := {};
    for i := 0 to |sentences|
      invariant DedupFrom(sentences, {}) == uniqueSentences + DedupFrom(sentences[i..], seen)
    {
      assert sentences[i..][1..] == sentences[i + 1..];
      var lowered := Lower(sentences[i]);
      if lowered !in seen {
        seen := seen + {lowered};
        uniqueSentences := uniqueSentences + [sentences[i]];
      }
    }
    assert sentences[|sentences|..] == [];
    assert uniqueSentences + [] == uniqueSentences;
    revised := Join(" ", uniqueSentences) + " " + RevisionNote(iteration, audience);
    revised := ApplyRegister(register, revised);
    revised := EnsureVariant(variant, revised);
  }

  /**
   * The kept sentences keep their order, repeat no sentence ignoring case,
   * and still cover every sentence of the draft ignoring case.
   */
  lemma RevisedSentences(text: string)
    ensures var unique := DedupFrom(SplitSentences(text), {});
      IsSubsequence(unique, SplitSentences(text)) && NoCaseDuplicates(unique) &&
      Lowers(unique) == Lowers(SplitSentences(text))
  {
    DedupCorrect(SplitSentences(text), {});
  }

  // ---------------------------------------------------------------------
  // Reflection notes
  // ---------------------------------------------------------------------

  const ToneTail := " an Beispielen konkretisieren."
  const ExamplePoint := "Praxisbeispiel ergänzen, sobald Daten vorliegen [KLÄREN: Beispiel]."
  const CtaPointLead := "CTA stärker auf "

  function ReflectionPoints(tone: string, audience: string): seq<string> {
    ["Tonfall " + tone + ToneTail,
     ExamplePoint,
     CtaPointLead + audience + " zuschneiden."]
  }

  const ReflectionLead := "Reflexion nach Revision "

  /** The header and the numbered points, one per line. */
  function ReflectionLines(iteration: int, tone: string, audience: string): (r: seq<string>)
    ensures |r| == 4
  {
    var points := ReflectionPoints(tone, audience);
    [ReflectionLead + IntToString(iteration) + ":"] +
    seq(3, i requires 0 <= i < 3 => IntToString(i + 1) + ". " + points[i])
  }

  /** `_reflection_notes`, whose loop numbers the points from 1; the notes are never empty. */
  method ReflectionNotes(iteration: int, tone: string, audience: string) returns (notes: string)
    ensures notes == Join("\n", ReflectionLines(iteration, tone, audience))
    ensures notes != []
  {
    var points := ReflectionPoints(tone, audience);
    var lines := [ReflectionLead + IntToString(iteration) + ":"];
    for idx := 0 to 3
      invariant |lines| == idx + 1 && lines[0] == ReflectionLead + IntToString(iteration) + ":"
      invariant forall k :: 0 <= k < idx ==> lines[k + 1] == IntToString(k + 1) + ". " + points[k]
    {
      lines := lines + [IntToString(idx + 1) + ". " + points[idx]];
    }
    assert lines == ReflectionLines(iteration, tone, audience);
    notes := Join("\n", lines);
    assert |Join("\n", lines)| >= |lines[0]| by {
      assert Join("\n", lines) == lines[0] + "\n" + Join("\n", lines[1..]);
    }
  }

  // ---------------------------------------------------------------------
  // Word budgets
  // ---------------------------------------------------------------------

  /** The least a section may have: 85 % of its budget, at least one word. */
  function BudgetLower(budget: int): (n: int)
    ensures n >= 1
  {
    Max(1, Scale(budget, 85, 100))
  }

  /** The most a section may have: 105 % of its budget, never below the least. */
  function BudgetUpper(budget: int): (n: int)
    ensures n >= BudgetLower(budget)
  {
    Max(BudgetLower(budget), Scale(budget, 105, 100))
  }

  /** The first loop of `_adjust_section_to_budget`: drop the last sentence while over budget and more than one is left. */
  function Popped(sentences: seq<string>, upper: int): seq<string>
    decreases |sentences|
  {
    if |sentences| > 1 && CountWords(Join(" ", sentences)) > upper then Popped(sentences[..|sentences| - 1], upper)
    else sentences
  }

  /**
   * Popping keeps a non-empty prefix; it stops at one sentence or within
   * the budget; and the sentence after the kept ones was dropped only
   * because the text with it was over budget.
   */
  lemma {:induction false} PoppedSpec(sentences: seq<string>, upper: int)
    requires sentences != []
    ensures var p := Popped(sentences, upper);
      1 <= |p| <= |sentences| && p == sentences[..|p|] &&
      (|p| == 1 || CountWords(Join(" ", p)) <= upper) &&
      (|p| < |sentences| ==> CountWords(Join(" ", sentences[..|p| + 1])) > upper)
    decreases |sentences|
  {
    if |sentences| > 1 && CountWords(Join(" ", sentences)) > upper {
      var init := sentences[..|sentences| - 1];
      PoppedSpec(init, upper);
      var p := Popped(init, upper);
      assert sentences[..|p|] == init[..|p|];
      if |p| + 1 < |sentences| {
        assert sentences[..|p| + 1] == init[..|p| + 1];
      } else {
        assert sentences[..|p| + 1] == sentences;
      }
    } else {
      assert sentences[..|sentences|] == sentences;
    }
  }

  /** The hard cut of `_adjust_section_to_budget` and `_enforce_length`: the first `n` words. */
  function FirstWords(text: string, n: nat): string {
    var ws := Words(text);
    Join(" ", ws[..if n <= |ws| then n else |ws|])
  }

  lemma FirstWordsSpec(text: string, n: nat)
    requires n <= CountWords(text)
    ensures Words(FirstWords(text, n)) == Words(text)[..n]
    ensures CountWords(FirstWords(text, n)) == n
  {
    WordsAreWords(text);
    var ws := Words(text)[..n];
    assert AllWords(ws) by {
      forall i | 0 <= i < |ws| ensures IsWord(ws[i]) {
        assert ws[i] == Words(text)[i];
      }
    }
    WordsOfJoin(ws);
  }

  lemma JoinAppendWords(ss: seq<string>, e: string)
    ensures CountWords(Join(" ", ss + [e])) == CountWords(Join(" ", ss)) + CountWords(e)
  {
    if ss == [] {
      assert ss + [e] == [e];
      assert Words("") == [];
    } else {
      JoinAppend(" ", ss, e);
      CountWordsJoin(Join(" ", ss), e);
    }
  }

  // ---------------------------------------------------------------------
  // Whole-text length
  // ---------------------------------------------------------------------

  function MinWords(wordCount: int): int {
    Scale(wordCount, 97, 100)
  }

  function MaxWords(wordCount: int): int {
    Scale(wordCount, 103, 100)
  }

  const FillerLead := "Zusätzliche Details zu "
  const FillerTail := " verdeutlichen den Nutzen."
  const FillerTopicLead := "Zusätzliche Details verdeutlichen den Nutzen von "

  /** The sentence `_enforce_length` adds to a text that is too short. */
  function FillerSentence(filler: seq<string>, topic: string): string {
    if filler != [] then FillerLead + Join(", ", filler) + FillerTail
    else FillerTopicLead + topic + "."
  }

  /**
   * `_enforce_length` with the terms it would draw for the filler: a blank
   * text is returned as it is; a long one is cut to the maximum; a short
   * one gets one filler sentence.
   */
  function EnforcedLength(text: string, wordCount: int, variant: string, topic: string, filler: seq<string>): string
    requires wordCount > 0
  {
    var words := Words(text);
    if words == [] then text
    else
      var t := if |words| > MaxWords(wordCount) then FirstWords(text, MaxWords(wordCount))
               else if |words| < MinWords(wordCount) then Strip(text) + " " + FillerSentence(filler, topic)
               else text;
      EnsureVariant(variant, Strip(t))
  }

  lemma MaxWordsPositive(wordCount: int)
    requires wordCount > 0
    ensures MaxWords(wordCount) >= 1 && MinWords(wordCount) <= MaxWords(wordCount)
  {
  }

  /**
   * Whitespace comes back unchanged; a text over the maximum keeps exactly
   * its first maximum-many words; a text in the band keeps its words; a
   * short text gains the filler's words; every word is spelled for the variant.
   */
  lemma EnforcedLengthSpec(text: string, wordCount: int, variant: string, topic: string, filler: seq<string>)
    requires wordCount > 0
    ensures AllSpace(text) ==> EnforcedLength(text, wordCount, variant, topic, filler) == text
    ensures CountWords(text) > MaxWords(wordCount) ==>
      Words(EnforcedLength(text, wordCount, variant, topic, filler)) ==
      VariantWords(variant, Words(text)[..MaxWords(wordCount)])
    ensures !AllSpace(text) && MinWords(wordCount) <= CountWords(text) <= MaxWords(wordCount) ==>
      Words(EnforcedLength(text, wordCount, variant, topic, filler)) == VariantWords(variant, Words(text))
    ensures !AllSpace(text) && CountWords(text) < MinWords(wordCount) ==>
      Words(EnforcedLength(text, wordCount, variant, topic, filler)) ==
      VariantWords(variant, Words(text) + Words(FillerSentence(filler, topic)))
  {
    NoWordsIffBlank(text);
    MaxWordsPositive(wordCount);
    var words := Words(text);
    if words != [] {
      var n := MaxWords(wordCount);
      var t := if |words| > n then FirstWords(text, n)
               else if |words| < MinWords(wordCount) then Strip(text) + " " + FillerSentence(filler, topic)
               else text;
      WordsOfStrip(t);
      EnsureVariantSpec(variant, Strip(t));
      if |words| > n {
        FirstWordsSpec(text, n);
      } else if |words| < MinWords(wordCount) {
        WordsSplit(Strip(text), ' ', FillerSentence(filler, topic));
        WordsOfStrip(text);
      }
    }
  }
}
