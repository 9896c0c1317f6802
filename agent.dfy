/**
 * The writer agent of `wordsmith/agent.py`: a dataclass whose pipeline
 * steps update its terminology cache, its term cycle, its idea bullets and
 * the flags it keeps across sections, and whose file writes are recorded
 * as artifacts. Each state-changing method is proved against the
 * functions of modules Composition, Drafting and Outline.
 */
module Agent {
  import opened Common
  import opened Strings
  import opened Numerals
  import opened WordSplit
  import opened Json
  import opened Configuration
  import opened Outline
  import opened Drafting
  import opened Composition

  const WordCountError := "`word_count` muss größer als 0 sein."
  const IterationsError := "`iterations` darf nicht negativ sein."

  /** The error `__post_init__` raises for the given counts, if any. */
  function CreationError(wordCount: int, iterations: int): (r: Option<string>)
    ensures r.None? <==> wordCount > 0 && iterations >= 0
    ensures wordCount <= 0 ==> r == Some(WordCountError)
    ensures wordCount > 0 && iterations < 0 ==> r == Some(IterationsError)
  {
    if wordCount <= 0 then Some(WordCountError)
    else if iterations < 0 then Some(IterationsError)
    else None
  }

  class WriterAgent {
    const topic: string
    const wordCount: int
    const iterations: int
    const config: Config
    const content: string
    const textType: string
    const audience: string
    const tone: string
    const register: string
    const variant: string
    const constraints: string
    const sourcesAllowed: bool
    /** The keywords as `__post_init__` leaves them: stripped, blank ones dropped. */
    const seoKeywords: seq<string>
    const outputDir: string
    const logsDir: string
    /** `prompts.SYSTEM_PROMPT`, whose text is not part of this model. */
    const systemPrompt: string
    /** `SequenceMatcher(None, a, b).ratio()`, a library call given as a function. */
    const ratio: (string, string) -> real

    var steps: seq<string>
    var terminologyCache: seq<string>
    /**
     * How many terms `_term_cycle` has handed out. The cycle runs over the
     * cache, or over the lowered topic while the cache is empty, when
     * `_take_terms` draws nothing; so the cache and this count are its state.
     */
    var termPos: nat
    var ideaBullets: seq<string>
    var placeholderInserted: bool
    var sourcesSentenceUsed: bool
    var keywordsUsed: set<string>
    /** The files written so far, in order. */
    var written: seq<Artifact>

    ghost predicate Valid() {
      wordCount > 0 && iterations >= 0
    }

    function Inputs(): Request {
      Request(topic, wordCount, iterations, content, textType, audience, tone, register, variant, constraints,
              sourcesAllowed, seoKeywords)
    }

    function Progress(): Composition.Progress
      reads this`termPos, this`placeholderInserted, this`sourcesSentenceUsed, this`keywordsUsed
    {
      Composition.Progress(termPos, placeholderInserted, sourcesSentenceUsed, keywordsUsed)
    }

    /** `__post_init__` once its checks have passed. */
    constructor (topic: string, wordCount: int, steps: seq<string>, iterations: int, config: Config,
                 content: string, textType: string, audience: string, tone: string, register: string,
                 variant: string, constraints: string, sourcesAllowed: bool, seoKeywords: seq<string>,
                 systemPrompt: string, ratio: (string, string) -> real)
      requires CreationError(wordCount, iterations).None?
      ensures Valid()
      ensures this.topic == topic && this.wordCount == wordCount && this.iterations == iterations
      ensures this.config == config && this.content == content && this.textType == textType
      ensures this.audience == audience && this.tone == tone && this.register == register
      ensures this.variant == variant && this.constraints == constraints && this.sourcesAllowed == sourcesAllowed
      ensures this.seoKeywords == NonBlankStrips(seoKeywords) && this.systemPrompt == systemPrompt && this.ratio == ratio
      ensures outputDir == config.outputDir && logsDir == config.logsDir
      ensures this.steps == steps && terminologyCache == [] && termPos == 0
      ensures ideaBullets == [] && !placeholderInserted && !sourcesSentenceUsed && keywordsUsed == {} && written == []
    {
      this.topic := topic;
      this.wordCount := wordCount;
      this.iterations := iterations;
      this.config := config;
      this.content := content;
      this.textType := textType;
      this.audience := audience;
      this.tone := tone;
      this.register := register;
      this.variant := variant;
      this.constraints := constraints;
      this.sourcesAllowed := sourcesAllowed;
      this.seoKeywords := NonBlankStrips(seoKeywords);
      this.outputDir := config.outputDir;
      this.logsDir := config.logsDir;
      this.systemPrompt := systemPrompt;
      this.ratio := ratio;
      this.steps := steps;
      terminologyCache := [];
      termPos := 0;
      ideaBullets := [];
      placeholderInserted := false;
      sourcesSentenceUsed := false;
      keywordsUsed := {};
      written := [];
    }

    /** Build an agent, or fail with the error `__post_init__` raises. */
    static method Create(topic: string, wordCount: int, steps: seq<string>, iterations: int, config: Config,
                         content: string, textType: string, audience: string, tone: string, register: string,
                         variant: string, constraints: string, sourcesAllowed: bool, seoKeywords: seq<string>,
                         systemPrompt: string, ratio: (string, string) -> real)
      returns (r: Result<WriterAgent, string>)
      ensures r.Err? <==> CreationError(wordCount, iterations).Some?
      ensures r.Err? ==> r.error == CreationError(wordCount, iterations).value
      ensures r.Ok? ==> fresh(r.value) && r.value.Valid() && r.value.seoKeywords == NonBlankStrips(seoKeywords)
      ensures r.Ok? ==> r.value.terminologyCache == [] && r.value.written == []
    {
      var error := CreationError(wordCount, iterations);
      if error.Some? {
        return Err(error.value);
      }
      var agent := new WriterAgent(topic, wordCount, steps, iterations, config, content, textType, audience, tone,
                                   register, variant, constraints, sourcesAllowed, seoKeywords, systemPrompt, ratio);
      return Ok(agent);
    }

    // -------------------------------------------------------------------
    // The term cycle and keyword injection
    // -------------------------------------------------------------------

    /** `_take_terms`: the next `count` terms of the cycle, or none while the cache is empty. */
    method TakeTerms(count: nat) returns (terms: seq<string>)
      requires Valid()
      modifies this`termPos
      ensures terms == Taken(terminologyCache, old(termPos), count)
      ensures termPos == Advanced(terminologyCache, old(termPos), count)
    {
      if terminologyCache == [] {
        return [];
      }
      terms := [];
      var start := termPos;
      for i := 0 to count
        invariant terms == CycleTake(terminologyCache, start, i)
        invariant termPos == start + i
      {
        var term := terminologyCache[termPos % |terminologyCache|];
        CycleTakeSplit(terminologyCache, start, i, 1);
        TakenOne(terminologyCache, start + i);
        terms := terms + [term];
        termPos := termPos + 1;
      }
    }

    /** `_inject_keyword`: one sentence for the first keyword not used yet. */
    method InjectKeyword(sentences: seq<string>) returns (result: seq<string>)
      modifies this`keywordsUsed
      ensures (result, keywordsUsed) == Injected(sentences, seoKeywords, old(keywordsUsed))
    {
      result := sentences;
      var i := 0;
      while i < |seoKeywords|
        invariant 0 <= i <= |seoKeywords|
        invariant forall j :: 0 <= j < i ==> Lower(seoKeywords[j]) in keywordsUsed
        invariant keywordsUsed == old(keywordsUsed) && result == sentences
      {
        var keyword := seoKeywords[i];
        var lowered := Lower(keyword);
        if lowered in keywordsUsed {
          i := i + 1;
          continue;
        }
        FirstUnusedIndexIs(seoKeywords, keywordsUsed, i);
        result := result + [KeywordSentence(keyword)];
        keywordsUsed := keywordsUsed + {lowered};
        return;
      }
      FirstUnusedIndexIs(seoKeywords, keywordsUsed, i);
    }

    // -------------------------------------------------------------------
    // A section
    // -------------------------------------------------------------------

    /** `_expansion_sentence`: it draws one term from the cycle. */
    method ExpansionSentenceFor(b: Briefing, section: OutlineSection) returns (sentence: string)
      requires Valid()
      modifies this`termPos
      ensures sentence == ExpansionSentence(ExpansionMessage(b.messages, topic), Keyword(terminologyCache, old(termPos), Lower(topic)), section.title)
      ensures termPos == Advanced(terminologyCache, old(termPos), 1)
    {
      var term := TakeTerms(1);
      if terminologyCache != [] {
        TakenOne(terminologyCache, old(termPos));
      }
      var message := if b.messages != [] then b.messages[0] else topic;
      var keyword := if term != [] then term[0] else Lower(topic);
      sentence := ExpansionSentence(message, keyword, section.title);
    }

    /**
     * `_adjust_section_to_budget`: drop trailing sentences while over the
     * upper bound, cut a single long sentence to the bound, or else append
     * expansion sentences until the lower bound is reached.
     */
    method AdjustSectionToBudget(sentences: seq<string>, budget: int, b: Briefing, section: OutlineSection)
      returns (text: string)
      requires Valid()
      modifies this`termPos
      ensures (text, termPos) == AdjustedSection(sentences, budget, ExpansionMessage(b.messages, topic), section.title,
                                                 terminologyCache, old(termPos), Lower(topic), variant)
    {
      var lower := Max(1, Scale(budget, 85, 100));
      var upper := Max(lower, Scale(budget, 105, 100));
      var current := sentences;
      text := Join(" ", current);
      var words := CountWords(text);
      while words > upper && |current| > 1
        invariant Popped(current, upper) == Popped(sentences, upper)
        invariant text == Join(" ", current) && words == CountWords(text)
        decreases |current|
      {
        current := current[..|current| - 1];
        text := Join(" ", current);
        words := CountWords(text);
      }
      if words > upper {
        // Cut to `upper >= lower` words: the growing loop below cannot run after it.
        var trimmed := Words(text)[..upper];
        text := Join(" ", trimmed);
      } else {
        ghost var start := termPos;
        while words < lower
          invariant Grown(current, lower, ExpansionMessage(b.messages, topic), section.title, terminologyCache, termPos, Lower(topic)) ==
                    Grown(Popped(sentences, upper), lower, ExpansionMessage(b.messages, topic), section.title, terminologyCache, start, Lower(topic))
          invariant text == Join(" ", current) && words == CountWords(text)
          decreases lower - words
        {
          ghost var pos := termPos;
          var extra := ExpansionSentenceFor(b, section);
          ExpansionHasWords(ExpansionMessage(b.messages, topic), Keyword(terminologyCache, pos, Lower(topic)), section.title);
          JoinAppendWords(current, extra);
          current := current + [extra];
          text := Join(" ", current);
          words := CountWords(text);
        }
      }
      text := EnsureVariant(variant, text);
    }

    /** The opening, focus and idea sentences of `_compose_section`, and the placeholder once per run. */
    method LeadSentencesFor(section: OutlineSection, index: nat, sections: seq<OutlineSection>, b: Briefing,
                            previous: string, keyTerms: seq<string>) returns (sentences: seq<string>)
      requires index < |sections| && section == sections[index]
      modifies this`placeholderInserted
      ensures sentences == LeadSentences(Inputs(), b, ideaBullets, sections, index, previous, keyTerms, old(placeholderInserted))
      ensures placeholderInserted
    {
      sentences := [];
      if index == 0 {
        sentences := sentences + ["Dieser " + Lower(textType) + " positioniert '" + topic + "' für " + audience +
                                  " und erklärt, warum " + b.goal + " jetzt wichtig ist."];
      } else {
        var reference := if previous != [] then previous else Lower(sections[index - 1].title);
        sentences := sentences + ["Aufbauend auf " + reference + " vertieft der Abschnitt die Perspektive auf " + topic + "."];
      }
      assert sentences == [OpeningSentence(Inputs(), b, sections, index, previous)];
      if keyTerms != [] {
        var focusTerms := Join(", ", keyTerms);
        sentences := sentences + [section.deliverable + " Begriffe wie " + focusTerms + " dienen als Terminologie-Anker."];
      } else {
        sentences := sentences + [section.deliverable + " Dabei bleibt der Fokus klar auf " + topic + "."];
      }
      assert sentences == [OpeningSentence(Inputs(), b, sections, index, previous), FocusSentence(Inputs(), section, keyTerms)];
      if ideaBullets != [] {
        var bullet := Strip(ideaBullets[index % |ideaBullets|]);
        sentences := sentences + ["Die ausgearbeitete Idee betont: " + bullet + "."];
      }
      assert sentences == [OpeningSentence(Inputs(), b, sections, index, previous), FocusSentence(Inputs(), section, keyTerms)]
                          + IdeaSentences(ideaBullets, index);
      if !placeholderInserted {
        sentences := sentences + [PlaceholderSentence];
        placeholderInserted := true;
      }
    }

    /** The keyword sentence, if keywords are given, and the sources note, once per run when sources are not allowed. */
    method KeywordAndSourcesFor(lead: seq<string>) returns (sentences: seq<string>)
      modifies this`sourcesSentenceUsed, this`keywordsUsed
      ensures sentences == WithKeyword(Inputs(), lead, old(keywordsUsed)).0 + SourcesSentences(Inputs(), old(sourcesSentenceUsed))
      ensures keywordsUsed == WithKeyword(Inputs(), lead, old(keywordsUsed)).1
      ensures sourcesSentenceUsed <==> old(sourcesSentenceUsed) || !sourcesAllowed
    {
      sentences := lead;
      if seoKeywords != [] {
        sentences := InjectKeyword(sentences);
      }
      if !sourcesAllowed && !sourcesSentenceUsed {
        sentences := sentences + [SourcesSentence];
        sourcesSentenceUsed := true;
      }
    }

    /** The sentence list `_compose_section` hands to the budget step, and the flags it sets on the way. */
    method SectionSentencesFor(section: OutlineSection, index: nat, sections: seq<OutlineSection>, b: Briefing,
                               previous: string, keyTerms: seq<string>) returns (sentences: seq<string>)
      requires index < |sections| && section == sections[index]
      modifies this`placeholderInserted, this`sourcesSentenceUsed, this`keywordsUsed
      ensures sentences == SectionSentences(Inputs(), b, ideaBullets, old(Progress()), sections, index, previous, keyTerms)
      ensures placeholderInserted && (sourcesSentenceUsed <==> old(sourcesSentenceUsed) || !sourcesAllowed)
      ensures var lead := LeadSentences(Inputs(), b, ideaBullets, sections, index, previous, keyTerms, old(placeholderInserted));
        keywordsUsed == WithKeyword(Inputs(), lead, old(keywordsUsed)).1
    {
      var message := if b.messages != [] then b.messages[index % |b.messages|] else topic;
      var lead := LeadSentencesFor(section, index, sections, b, previous, keyTerms);
      sentences := KeywordAndSourcesFor(lead);
      var closing;
      if index < |sections| - 1 {
        var nextTitle := sections[index + 1].title;
        closing := "Der Ausblick bereitet den Abschnitt \"" + nextTitle + "\" vor.";
      } else {
        closing := CtaSentence(register, topic);
      }
      sentences := sentences + [RequestSentence(message), closing];
    }

    /** `_compose_section`: the heading and text of section `index`, and its summary. */
    method ComposeSection(section: OutlineSection, index: nat, sections: seq<OutlineSection>, b: Briefing, previous: string)
      returns (text: string, summary: string)
      requires Valid() && index < |sections| && section == sections[index]
      modifies this`termPos, this`placeholderInserted, this`sourcesSentenceUsed, this`keywordsUsed
      ensures ComposedSection(Inputs(), terminologyCache, ideaBullets, old(Progress()), sections, b, index, previous)
        == Composed(text, summary, Progress())
    {
      ghost var st := Progress();
      var heading := "## " + section.number + ". " + section.title + " (" + section.role + ")";
      var keyTerms, sentences := DrawSentences(section, index, sections, b, previous);
      ghost var drawn := termPos;
      var body := AdjustSectionToBudget(sentences, section.budget, b, section);
      summary := SectionSummary(section, body);
      text := heading + "\n" + body;
      assert heading == SectionHeading(section);
      ComposedFrom(Inputs(), terminologyCache, ideaBullets, st, sections, section, b, index, previous, keyTerms, drawn, sentences, body, termPos);
    }

    /** The first half of `_compose_section`: the two key terms and the sentences built around them. */
    method DrawSentences(section: OutlineSection, index: nat, sections: seq<OutlineSection>, b: Briefing, previous: string)
      returns (keyTerms: seq<string>, sentences: seq<string>)
      requires Valid() && index < |sections| && section == sections[index]
      modifies this`termPos, this`placeholderInserted, this`sourcesSentenceUsed, this`keywordsUsed
      ensures keyTerms == Taken(terminologyCache, old(termPos), 2) && termPos == Advanced(terminologyCache, old(termPos), 2)
      ensures sentences == SectionSentences(Inputs(), b, ideaBullets, old(Progress()).(termPos := termPos), sections, index, previous, keyTerms)
      ensures placeholderInserted && (sourcesSentenceUsed <==> old(sourcesSentenceUsed) || !sourcesAllowed)
      ensures var lead := LeadSentences(Inputs(), b, ideaBullets, sections, index, previous, keyTerms, old(placeholderInserted));
        keywordsUsed == WithKeyword(Inputs(), lead, old(keywordsUsed)).1
    {
      keyTerms := TakeTerms(2);
      sentences := SectionSentencesFor(section, index, sections, b, previous, keyTerms);
    }

    /** One iteration of `_generate_sections`: the next paragraph and the summary handed on to the section after it. */
    method GenerateStep(ghost st: Composition.Progress, sections: seq<OutlineSection>, b: Briefing, index: nat,
                        ghost paragraphs: seq<string>, previous: string)
      returns (text: string, summary: string)
      requires Valid() && index < |sections|
      requires DraftedAs(Inputs(), terminologyCache, ideaBullets, st, sections, b, index, paragraphs, Progress(), previous)
      modifies this`termPos, this`placeholderInserted, this`sourcesSentenceUsed, this`keywordsUsed
      ensures Valid()
      ensures DraftedAs(Inputs(), terminologyCache, ideaBullets, st, sections, b, index + 1, paragraphs + [text], Progress(), summary)
    {
      ghost var now := Progress();
      text, summary := ComposeSection(sections[index], index, sections, b, previous);
      DraftedStep(Inputs(), terminologyCache, ideaBullets, st, sections, b, index, paragraphs, now, previous,
                  Composed(text, summary, Progress()));
    }

    /** `_generate_sections`: the paragraphs of all sections, each linked to the previous one's summary. */
    method GenerateSections(sections: seq<OutlineSection>, b: Briefing) returns (draft: string)
      requires Valid()
      modifies this`termPos, this`placeholderInserted, this`sourcesSentenceUsed, this`keywordsUsed
      ensures Drafts(Inputs(), terminologyCache, ideaBullets, old(Progress()), sections, b, draft, Progress())
    {
      var paragraphs, previous := GenerateParagraphs(sections, b);
      draft := Join("\n\n", paragraphs);
      DraftedAll(Inputs(), terminologyCache, ideaBullets, old(Progress()), sections, b, paragraphs, Progress(), previous);
    }

    /** The loop of `_generate_sections`: one paragraph per section, in order. */
    method GenerateParagraphs(sections: seq<OutlineSection>, b: Briefing) returns (paragraphs: seq<string>, previous: string)
      requires Valid()
      modifies this`termPos, this`placeholderInserted, this`sourcesSentenceUsed, this`keywordsUsed
      ensures DraftedAs(Inputs(), terminologyCache, ideaBullets, old(Progress()), sections, b, |sections|, paragraphs, Progress(), previous)
    {
      paragraphs, previous := [], "";
      ghost var st := Progress();
      DraftedStart(Inputs(), terminologyCache, ideaBullets, st, sections, b);
      for index := 0 to |sections|
        invariant Valid()
        invariant DraftedAs(Inputs(), terminologyCache, ideaBullets, st, sections, b, index, paragraphs, Progress(), previous)
      {
        var text, summary := GenerateStep(st, sections, b, index, paragraphs, previous);
        paragraphs := paragraphs + [text];
        previous := summary;
      }
    }

    /** `_enforce_length`: cut a long text, pad a short one with a filler sentence. */
    method EnforceLength(text: string) returns (result: string)
      requires Valid()
      modifies this`termPos
      ensures (result, termPos) == LengthEnforced(text, wordCount, variant, topic, terminologyCache, old(termPos))
    {
      var words := Words(text);
      if words == [] {
        return text;
      }
      var minWords := Scale(wordCount, 97, 100);
      var maxWords := Scale(wordCount, 103, 100);
      var t := text;
      if |words| > maxWords {
        t := Join(" ", words[..maxWords]);
      } else if |words| < minWords {
        var fillerTerms := TakeTerms(3);
        var addition := if fillerTerms != [] then "Zusätzliche Details zu " + Join(", ", fillerTerms) + " verdeutlichen den Nutzen."
                        else "Zusätzliche Details verdeutlichen den Nutzen von " + topic + ".";
        t := Strip(t) + " " + addition;
      }
      result := EnsureVariant(variant, Strip(t));
    }

    // -------------------------------------------------------------------
    // Briefing, idea and outline
    // -------------------------------------------------------------------

    /** `_split_content_into_sentences`: the stripped, non-empty pieces between full stops. */
    method SplitContentIntoSentences(text: string) returns (sentences: seq<string>)
      ensures sentences == SentencePieces(text)
    {
      var raws := SplitOn(ReplaceChar(text, '\n', ' '), '.');
      sentences := [];
      for i := 0 to |raws|
        invariant sentences == NonBlankStrips(raws[..i])
      {
        assert raws[..i + 1] == raws[..i] + [raws[i]];
        NonBlankStripsAppend(raws[..i], raws[i]);
        var cleaned := Strip(raws[i]);
        if cleaned != [] {
          sentences := sentences + [cleaned];
        }
      }
      assert raws[..|raws|] == raws;
    }

    /** `_extract_key_terms`: the long tokens of the notes and the long words of the topic, in a set, sorted. */
    method ExtractKeyTerms() returns (terms: seq<string>)
      ensures terms == KeyTerms(content, topic)
    {
      var tokens := Words(ReplaceChar(content, '\n', ' '));
      var collected := CollectTokenTerms(tokens);
      var topicTerms := TopicTerms(Words(topic));
      ElemsConcat(TokenTerms(tokens), topicTerms);
      collected := collected + Elems(topicTerms);
      terms := SortedElems(collected);
      SortedSetCorrect(TokenTerms(tokens) + topicTerms);
      SortedUnique(terms, KeyTerms(content, topic));
    }

    /** The loop of `_extract_key_terms` over the tokens of the notes: each long cleaned token joins the set. */
    static method CollectTokenTerms(tokens: seq<string>) returns (collected: set<string>)
      ensures collected == Elems(TokenTerms(tokens))
    {
      collected := {};
      for i := 0 to |tokens|
        invariant collected == Elems(TokenTerms(tokens[..i]))
      {
        LongImagesStep(tokens, i, TermOfToken);
        var token := TermOf(tokens[i]);
        assert TermOfToken(tokens[i]) == token;
        ElemsConcat(TokenTerms(tokens[..i]), if |token| > 4 then [token] else []);
        if |token| > 4 {
          collected := collected + {token};
        }
      }
      assert tokens[..|tokens|] == tokens;
    }

    /** `_normalize_briefing`: caches the key terms, restarts the term cycle on them and builds the briefing. */
    method NormalizeBriefing() returns (b: Briefing)
      requires Valid()
      modifies this`terminologyCache, this`termPos, this`steps
      ensures Valid()
      ensures terminologyCache == BriefingTerms(content, topic) && termPos == 0
      ensures b == BriefingOf(Inputs(), terminologyCache)
      ensures steps == old(steps) + ["briefing"]
    {
      var keyTerms := ExtractKeyTerms();
      if keyTerms == [] {
        keyTerms := [Lower(topic)];
      }
      terminologyCache := keyTerms;
      termPos := 0;
      var messages := NonBlankStrips(SplitLines(content));
      if messages == [] {
        messages := [NoNotesMessage];
      }
      b := Briefing(textType + " zu '" + topic + GoalTail, audience, tone, register, variant,
                    if constraints != [] then constraints else NoConstraints, keyTerms, messages,
                    if seoKeywords != [] then Some(seoKeywords) else None);
      steps := steps + ["briefing"];
    }

    /** `_improve_idea`: one bullet per sentence of the notes, questions marked for clarification. */
    method ImproveIdea(b: Briefing) returns (idea: string)
      modifies this`ideaBullets, this`steps
      ensures ideaBullets == IdeaBullets(content) && idea == IdeaText(Inputs(), b, ideaBullets)
      ensures steps == old(steps) + ["idea"]
    {
      var rawSentences := SplitContentIntoSentences(content);
      SentencePiecesShape(content);
      var bullets: seq<string> := [];
      // The pieces are stripped and never blank, so the source's `continue` is never taken.
      for i := 0 to |rawSentences|
        invariant |bullets| == i && forall k :: 0 <= k < i ==> bullets[k] == Bullet(rawSentences[k])
        invariant steps == old(steps)
      {
        StripOfStripped(rawSentences[i]);
        var cleaned := Strip(rawSentences[i]);
        if '?' in cleaned {
          bullets := bullets + ["[KLÄREN: " + StripBy(cleaned, QuestionTrim) + "]"];
        } else {
          bullets := bullets + [cleaned];
        }
      }
      IdeaBulletsSpec(content);
      if bullets == [] {
        bullets := [NoIdeaBullet];
      }
      assert bullets == IdeaBullets(content);
      ideaBullets := bullets;
      var bulletText := Join("\n", IdeaLines(bullets));
      var summary := SummaryLead + b.audience + " und stärkt " + topic + " als " + textType + ".";
      idea := Join("\n", [IdeaHeaderLead + topic + "':", bulletText, "", summary]);
      steps := steps + ["idea"];
    }

    /** The list `_improve_outline` cycles through: the cached terms, or the lowered topic. */
    function OutlineTerms(): (r: seq<string>)
      reads this`terminologyCache
      ensures r != [] && (terminologyCache != [] ==> r == terminologyCache)
    {
      if terminologyCache != [] then terminologyCache else [Lower(topic)]
    }

    /** `_create_outline`: the plan for the word count, focused on the terms, then balanced. */
    method CreateOutline() returns (sections: seq<OutlineSection>)
      modifies this`steps
      ensures sections == Cleaned(ImprovedOutline(BuildOutlineSections(wordCount), OutlineTerms()), wordCount)
      ensures steps == old(steps) + ["outline"]
    {
      sections := BuildOutlineSections(wordCount);
      sections := ImproveOutline(sections, OutlineTerms());
      sections := CleanOutline(sections, wordCount);
      steps := steps + ["outline"];
    }

    // -------------------------------------------------------------------
    // The rubric fix step
    // -------------------------------------------------------------------

    /**
     * `_apply_text_type_fix`: each issue's fix in turn, keyword fixes
     * marking their keyword used, then the similarity gate and the variant.
     */
    method ApplyTextTypeFix(text: string, issues: seq<string>) returns (result: string)
      modifies this`keywordsUsed
      ensures var fixed := FixedAll(text, issues, register, topic);
        result == EnsureVariant(variant, Gated(text, fixed, 0.8, 0.9, ratio(text, fixed), variant))
      ensures keywordsUsed == old(keywordsUsed) + FixKeywords(issues)
    {
      var fixed := text;
      for i := 0 to |issues|
        invariant fixed == FixedAll(text, issues[..i], register, topic)
        invariant keywordsUsed == old(keywordsUsed) + FixKeywords(issues[..i])
      {
        assert issues[..i + 1][..i] == issues[..i];
        var issue := issues[i];
        if Contains(issue, "SEO-Keyword") {
          var keyword := KeywordOfIssue(issue);
          if keyword.Some? {
            fixed := fixed + "\n\n" + keyword.value + KeywordFixTail;
            keywordsUsed := keywordsUsed + {Lower(keyword.value)};
          }
        } else if Contains(issue, HeadingsWord) {
          fixed := EnsureHeadings(fixed);
        } else if Contains(issue, "CTA") {
          fixed := Strip(fixed) + "\n\n" + CtaSentence(register, topic);
        } else if Contains(issue, "Register") {
          fixed := ApplyRegister(register, fixed);
        } else if Contains(issue, "Abschluss") {
          fixed := Strip(fixed) + "\n\n" + ClosingFix + " " + CtaSentence(register, topic);
        }
      }
      assert issues[..|issues|] == issues;
      if !SimilarEnough(text, fixed, 0.8, 0.9, ratio(text, fixed)) {
        fixed := BlendWithOriginal(text, fixed, variant);
      }
      result := EnsureVariant(variant, fixed);
    }

    // -------------------------------------------------------------------
    // Artifacts
    // -------------------------------------------------------------------

    /** `_write_text`: the stripped text and a final newline. */
    method WriteText(dir: string, file: File, text: string)
      modifies this`written
      ensures written == old(written) + [TextFile(dir, file, text)]
    {
      written := written + [Artifact(dir, file, Text(Strip(text) + "\n"))];
    }

    /** `_write_json`: the document before encoding. */
    method WriteJson(dir: string, file: File, value: Value)
      modifies this`written
      ensures written == old(written) + [Artifact(dir, file, Data(value))]
    {
      written := written + [Artifact(dir, file, Data(value))];
    }

    /** `_write_metadata`: the request, the final word count and the rubric verdict. */
    method WriteMetadata(text: string, rubricPassed: bool)
      modifies this`written
      ensures written == old(written) +
        [Artifact(outputDir, MetadataJson, Data(MetadataValue(Inputs(), text, rubricPassed, config.llmProvider, systemPrompt)))]
    {
      var metadata := Obj([("title", Str(topic)), ("audience", Str(audience)), ("tone", Str(tone)),
                           ("register", Str(register)), ("variant", Str(variant)), ("keywords", Arr(Strs(seoKeywords))),
                           ("final_word_count", Int(CountWords(text))), ("rubric_passed", Bool(rubricPassed)),
                           ("sources_allowed", Bool(sourcesAllowed)), ("llm_provider", Str(config.llmProvider)),
                           ("system_prompt", Str(systemPrompt))]);
      WriteJson(outputDir, MetadataJson, metadata);
    }

    /** The "Revision NN abgeschlossen" lines, one per revision round. */
    static method RevisionLog(n: nat) returns (revisions: seq<string>)
      ensures revisions == RevisionLines(n)
    {
      revisions := [];
      for iteration := 1 to n + 1
        invariant revisions == RevisionLines(iteration - 1)
      {
        revisions := revisions + [RevisionLine(iteration)];
      }
    }

    /** `_write_logs`: `run.log` line by line, one line per revision, and the `llm.log` entry. */
    method WriteLogs(b: Briefing, sections: seq<OutlineSection>, rubricPassed: bool)
      requires Valid()
      modifies this`written
      ensures written == old(written) +
        [Artifact(logsDir, RunLog, Text(Join("\n", RunLogLines(topic, wordCount, rubricPassed, iterations)) + "\n")),
         Artifact(logsDir, LlmLog, Data(LlmLogValue(Inputs(), config.llmProvider, Obj(ParamsEntries(config.llm.Values())),
                                                    systemPrompt, b, sections)))]
    {
      var head := [StartedLine, "Thema: " + topic, "Zielwortzahl: " + IntToString(wordCount),
                   BriefingLine, IdeaLine, OutlineLine, SectionsLine,
                   if rubricPassed then RubricPassedLine else RubricFixedLine];
      var revisions := RevisionLog(iterations);
      var logLines := head + revisions + [FinishedLine];
      written := written + [Artifact(logsDir, RunLog, Text(Join("\n", logLines) + "\n"))];
      var parameters := Obj(ParamsEntries(config.llm.Values()));
      var entry := Obj([("provider", Str(config.llmProvider)), ("parameters", parameters), ("system_prompt", Str(systemPrompt)),
                        ("topic", Str(topic)), ("word_count", Int(wordCount)),
                        ("audience", Str(audience)), ("text_type", Str(textType)), ("messages", Arr(Strs(b.messages))),
                        ("outline", Arr(SectionValues(sections)))]);
      written := written + [Artifact(logsDir, LlmLog, Data(entry))];
    }
      // -------------------------------------------------------------------
    // The pipeline
    // -------------------------------------------------------------------

    /**
     * `run`: the flags of the previous run cleared, then the briefing, the
     * idea, the outline, the first draft, the rubric fix only when the
     * draft has issues, exactly `iterations` revision rounds, the metadata
     * and the logs. The final text is the one `current_text.txt` last
     * receives.
     */
    method Run() returns (draft: string, ghost firstDraft: string, ghost rubricFixed: bool, rubricPassed: bool)
      requires Valid()
      modifies this
      ensures Valid()
      ensures steps == old(steps) + ["briefing", "idea", "outline"]
      ensures Files(written) == Files(old(written)) + RunFiles(rubricFixed, iterations)
      ensures written[|old(written)| + 4] == TextFile(outputDir, CurrentText, firstDraft)
      ensures rubricFixed <==> CheckTextType(firstDraft, register, seoKeywords).1 != []
      ensures !rubricFixed ==> rubricPassed
      ensures !rubricFixed && iterations == 0 ==> draft == firstDraft
      ensures written[|written| - 5] == TextFile(outputDir, CurrentText, draft)
    {
      placeholderInserted, sourcesSentenceUsed, keywordsUsed := false, false, {};
      ideaBullets := [];
      var b := BriefingStep();
      IdeaStep(b);
      var sections := OutlineStep();
      ghost var w3 := written;
      draft, firstDraft, rubricFixed, rubricPassed := AfterOutline(b, sections);
      AppendThree(old(steps), "briefing", "idea", "outline");
      PreparedFiles(old(written), w3, written, rubricFixed, iterations);
    }

    /** The briefing step of `run`, as the rest of the run sees it: `briefing.json` written. */
    method BriefingStep() returns (b: Briefing)
      requires Valid()
      modifies this`terminologyCache, this`termPos, this`steps, this`written
      ensures Valid()
      ensures steps == old(steps) + ["briefing"]
      ensures Files(written) == Files(old(written)) + [BriefingJson] && old(written) <= written
      ensures |written| == |old(written)| + 1
    {
      b := BriefingStage();
      FilesAppend(old(written), [Artifact(outputDir, BriefingJson, Data(BriefingValue(b)))]);
    }

    /** The idea step of `run`, as the rest of the run sees it: `idea.txt` written. */
    method IdeaStep(b: Briefing)
      modifies this`ideaBullets, this`steps, this`written
      ensures steps == old(steps) + ["idea"]
      ensures Files(written) == Files(old(written)) + [IdeaTxt] && old(written) <= written
      ensures |written| == |old(written)| + 1
    {
      IdeaStage(b);
      FilesAppend(old(written), [TextFile(outputDir, IdeaTxt, IdeaText(Inputs(), b, ideaBullets))]);
    }

    /** The outline step of `run`, as the rest of the run sees it: `outline.txt` and `iteration_00.txt` written. */
    method OutlineStep() returns (sections: seq<OutlineSection>)
      modifies this`steps, this`written
      ensures steps == old(steps) + ["outline"]
      ensures Files(written) == Files(old(written)) + [OutlineTxt, IterationTxt(0)] && old(written) <= written
      ensures |written| == |old(written)| + 2
    {
      sections := OutlineStage();
      FilesAppend(old(written), OutlineArtifacts(sections));
    }

    /** `run` from the first draft on: the draft, written twice, and the rest of the run. */
    method AfterOutline(b: Briefing, sections: seq<OutlineSection>)
      returns (draft: string, ghost firstDraft: string, ghost rubricFixed: bool, rubricPassed: bool)
      requires Valid()
      modifies this`termPos, this`placeholderInserted, this`sourcesSentenceUsed, this`keywordsUsed, this`written
      ensures Files(written) == Files(old(written)) + (DraftFiles + RubricOnFiles(rubricFixed, iterations))
      ensures written[|old(written)|] == TextFile(outputDir, CurrentText, firstDraft)
      ensures rubricFixed <==> CheckTextType(firstDraft, register, seoKeywords).1 != []
      ensures !rubricFixed ==> rubricPassed
      ensures !rubricFixed && iterations == 0 ==> draft == firstDraft
      ensures written[|written| - 5] == TextFile(outputDir, CurrentText, draft)
    {
      var first := DraftTurn(sections, b);
      firstDraft := first;
      draft, rubricFixed, rubricPassed := AfterDraft(first, b, sections);
      AppendAssoc(Files(old(written)), DraftFiles, RubricOnFiles(rubricFixed, iterations));
    }

    /** The first draft of `run`, as the rest of the run sees it: written to its two files. */
    method DraftTurn(sections: seq<OutlineSection>, b: Briefing) returns (first: string)
      requires Valid()
      modifies this`termPos, this`placeholderInserted, this`sourcesSentenceUsed, this`keywordsUsed, this`written
      ensures Files(written) == Files(old(written)) + DraftFiles && old(written) <= written
      ensures |written| == |old(written)| + 2 && written[|old(written)|] == TextFile(outputDir, CurrentText, first)
    {
      ghost var generated, mid;
      first, generated, mid := FirstDraft(sections, b);
      WriteDraft(first);
      FilesAppend(old(written), DraftArtifacts(first));
    }

    /**
     * `run` once the first draft is written: the rubric step, exactly
     * `iterations` revision rounds, the metadata and the logs.
     */
    method AfterDraft(first: string, b: Briefing, sections: seq<OutlineSection>)
      returns (draft: string, ghost rubricFixed: bool, rubricPassed: bool)
      requires Valid()
      requires |written| >= 2 && written[|written| - 2] == TextFile(outputDir, CurrentText, first)
      modifies this`termPos, this`keywordsUsed, this`written
      ensures Files(written) == Files(old(written)) + RubricOnFiles(rubricFixed, iterations)
      ensures old(written) <= written
      ensures rubricFixed <==> CheckTextType(first, register, seoKeywords).1 != []
      ensures !rubricFixed ==> rubricPassed
      ensures !rubricFixed && iterations == 0 ==> draft == first
      ensures written[|written| - 5] == TextFile(outputDir, CurrentText, draft)
    {
      var fixedDraft;
      fixedDraft, rubricFixed, rubricPassed := RubricTurn(first);
      draft := AfterRubric(fixedDraft, rubricPassed, b, sections);
      AppendAssoc(Files(old(written)), if rubricFixed then DraftFiles else [], RevisionFiles(iterations) + [MetadataJson, RunLog, LlmLog]);
      AppendAssoc(if rubricFixed then DraftFiles else [], RevisionFiles(iterations), [MetadataJson, RunLog, LlmLog]);
    }

    /** `run` once the rubric step is done: exactly `iterations` revision rounds, the metadata and the logs. */
    method AfterRubric(text: string, rubricPassed: bool, b: Briefing, sections: seq<OutlineSection>) returns (draft: string)
      requires Valid()
      requires |written| >= 2 && written[|written| - 2] == TextFile(outputDir, CurrentText, text)
      modifies this`termPos, this`written
      ensures Files(written) == Files(old(written)) + (RevisionFiles(iterations) + [MetadataJson, RunLog, LlmLog])
      ensures old(written) <= written
      ensures iterations == 0 ==> draft == text
      ensures written[|written| - 5] == TextFile(outputDir, CurrentText, draft)
    {
      draft := Revisions(text);
      ghost var w2 := written;
      assert |w2| >= 2 && w2[|w2| - 2] == TextFile(outputDir, CurrentText, draft);
      Close(draft, rubricPassed, b, sections);
      assert written[|written| - 5] == w2[|w2| - 2];
      AppendAssoc(Files(old(written)), RevisionFiles(iterations), [MetadataJson, RunLog, LlmLog]);
    }

    /** The outline, written once as the outline and once as iteration 0. */
    function OutlineArtifacts(sections: seq<OutlineSection>): (r: seq<Artifact>)
      ensures Files(r) == [OutlineTxt, IterationTxt(0)]
    {
      [TextFile(outputDir, OutlineTxt, FormatOutline(sections)), TextFile(outputDir, IterationTxt(0), FormatOutline(sections))]
    }

    /** `_normalize_briefing` and the write of `briefing.json`. */
    method BriefingStage() returns (b: Briefing)
      requires Valid()
      modifies this`terminologyCache, this`termPos, this`steps, this`written
      ensures Valid()
      ensures terminologyCache == BriefingTerms(content, topic) && termPos == 0
      ensures b == BriefingOf(Inputs(), terminologyCache)
      ensures steps == old(steps) + ["briefing"]
      ensures written == old(written) + [Artifact(outputDir, BriefingJson, Data(BriefingValue(b)))]
    {
      b := NormalizeBriefing();
      WriteJson(outputDir, BriefingJson, BriefingValue(b));
    }

    /** `_improve_idea` and the write of `idea.txt`. */
    method IdeaStage(b: Briefing)
      modifies this`ideaBullets, this`steps, this`written
      ensures ideaBullets == IdeaBullets(content)
      ensures steps == old(steps) + ["idea"]
      ensures written == old(written) + [TextFile(outputDir, IdeaTxt, IdeaText(Inputs(), b, ideaBullets))]
    {
      var idea := ImproveIdea(b);
      WriteText(outputDir, IdeaTxt, idea);
    }

    /** `_create_outline` and the two writes of the formatted outline. */
    method OutlineStage() returns (sections: seq<OutlineSection>)
      modifies this`steps, this`written
      ensures sections == Cleaned(ImprovedOutline(BuildOutlineSections(wordCount), OutlineTerms()), wordCount)
      ensures steps == old(steps) + ["outline"]
      ensures written == old(written) + OutlineArtifacts(sections)
    {
      sections := CreateOutline();
      var outlineText := FormatOutline(sections);
      WriteText(outputDir, OutlineTxt, outlineText);
      WriteText(outputDir, IterationTxt(0), outlineText);
    }

    /** The first draft of `run`: all sections composed, then the length enforced. */
    method FirstDraft(sections: seq<OutlineSection>, b: Briefing) returns (draft: string, ghost generated: string, ghost mid: Composition.Progress)
      requires Valid()
      modifies this`termPos, this`placeholderInserted, this`sourcesSentenceUsed, this`keywordsUsed
      ensures Drafts(Inputs(), terminologyCache, ideaBullets, old(Progress()), sections, b, generated, mid)
      ensures (draft, termPos) == LengthEnforced(generated, wordCount, variant, topic, terminologyCache, mid.termPos)
      ensures Progress() == mid.(termPos := termPos)
    {
      var text := GenerateSections(sections, b);
      generated, mid := text, Progress();
      draft := EnforceLength(text);
    }

    /** A new version of the draft, written to `current_text.txt` and to `iteration_01.txt`. */
    method WriteDraft(text: string)
      modifies this`written
      ensures written == old(written) + DraftArtifacts(text)
    {
      WriteText(outputDir, CurrentText, text);
      WriteText(outputDir, IterationTxt(1), text);
    }

    function DraftArtifacts(text: string): (r: seq<Artifact>)
      ensures Files(r) == DraftFiles
    {
      [TextFile(outputDir, CurrentText, text), TextFile(outputDir, IterationTxt(1), text)]
    }

    /** The fix of the rubric step: the fixes, the similarity gate at 0.8 and 0.9 again, the length. */
    method RubricFix(draft: string, issues: seq<string>) returns (result: string, ghost applied: string)
      requires Valid()
      modifies this`keywordsUsed, this`termPos
      ensures var fixed := FixedAll(draft, issues, register, topic);
        applied == EnsureVariant(variant, Gated(draft, fixed, 0.8, 0.9, ratio(draft, fixed), variant))
      ensures (result, termPos) == LengthEnforced(Gated(draft, applied, 0.8, 0.9, ratio(draft, applied), variant),
                                                  wordCount, variant, topic, terminologyCache, old(termPos))
      ensures keywordsUsed == old(keywordsUsed) + FixKeywords(issues)
    {
      var fixed := ApplyTextTypeFix(draft, issues);
      applied := fixed;
      var gated := Gate(draft, fixed, 0.8, 0.9);
      result := EnforceLength(gated);
    }

    /**
     * The rubric step of `run`: a draft without issues passes as it is;
     * otherwise it is fixed and written again, and a second check gives
     * the verdict.
     */
    method RubricStep(draft: string) returns (result: string, ghost fixed: bool, rubricPassed: bool)
      requires Valid()
      modifies this`keywordsUsed, this`termPos, this`written
      ensures fixed <==> CheckTextType(draft, register, seoKeywords).1 != []
      ensures !fixed ==> result == draft && rubricPassed && written == old(written)
      ensures fixed ==> written == old(written) + DraftArtifacts(result)
      ensures fixed ==> rubricPassed == CheckTextType(result, register, seoKeywords).0
    {
      var issues := CheckTextType(draft, register, seoKeywords).1;
      fixed := issues != [];
      if issues == [] {
        result, rubricPassed := draft, true;
        return;
      }
      ghost var applied;
      result, applied := RubricFix(draft, issues);
      WriteDraft(result);
      rubricPassed := CheckTextType(result, register, seoKeywords).0;
    }

    /** The rubric step of `run`, as the rest of the run sees it: the draft written again only when it was fixed. */
    method RubricTurn(first: string) returns (draft: string, ghost fixed: bool, rubricPassed: bool)
      requires Valid()
      requires |written| >= 2 && written[|written| - 2] == TextFile(outputDir, CurrentText, first)
      modifies this`keywordsUsed, this`termPos, this`written
      ensures fixed <==> CheckTextType(first, register, seoKeywords).1 != []
      ensures !fixed ==> draft == first && rubricPassed
      ensures Files(written) == Files(old(written)) + (if fixed then DraftFiles else []) && old(written) <= written
      ensures |written| >= 2 && written[|written| - 2] == TextFile(outputDir, CurrentText, draft)
    {
      draft, fixed, rubricPassed := RubricStep(first);
      if fixed {
        FilesAppend(old(written), DraftArtifacts(draft));
      }
    }

    /** The revision rounds of `run`: exactly `iterations` of them, each writing its three files. */
    method Revisions(draft: string) returns (result: string)
      requires Valid()
      modifies this`termPos, this`written
      ensures Files(written) == Files(old(written)) + RevisionFiles(iterations)
      ensures old(written) <= written
      ensures iterations == 0 ==> result == draft && written == old(written)
      ensures iterations > 0 ==> |written| >= 2 && written[|written| - 2] == TextFile(outputDir, CurrentText, result)
    {
      result := draft;
      for iteration := 1 to iterations + 1
        invariant Files(written) == Files(old(written)) + RevisionFiles(iteration - 1)
        invariant old(written) <= written
        invariant iteration == 1 ==> result == draft && written == old(written)
        invariant iteration > 1 ==> |written| >= 2 && written[|written| - 2] == TextFile(outputDir, CurrentText, result)
      {
        result := RevisionStep(old(written), result, iteration);
      }
    }

    /** One revision round, with what `Revisions` keeps track of: the names so far and the last draft written. */
    method RevisionStep(ghost start: seq<Artifact>, draft: string, iteration: nat) returns (result: string)
      requires Valid() && 1 <= iteration
      requires Files(written) == Files(start) + RevisionFiles(iteration - 1) && start <= written
      modifies this`termPos, this`written
      ensures Files(written) == Files(start) + RevisionFiles(iteration) && start <= written
      ensures |written| >= 2 && written[|written| - 2] == TextFile(outputDir, CurrentText, result)
    {
      ghost var before := written;
      result := RevisionRound(draft, iteration);
      FilesAppend(before, RoundArtifacts(iteration, result));
      AppendAssoc(Files(start), RevisionFiles(iteration - 1), RoundFiles(iteration));
    }

    /** The end of `run`: `metadata.json`, `run.log` and `llm.log`. */
    method Close(text: string, rubricPassed: bool, b: Briefing, sections: seq<OutlineSection>)
      requires Valid()
      modifies this`written
      ensures |written| == |old(written)| + 3 && old(written) <= written
      ensures Files(written) == Files(old(written)) + [MetadataJson, RunLog, LlmLog]
    {
      WriteMetadata(text, rubricPassed);
      WriteLogs(b, sections, rubricPassed);
      assert written == old(written) + written[|old(written)|..];
      FilesOfThree(written[|old(written)|], written[|old(written)| + 1], written[|old(written)| + 2]);
      assert written[|old(written)|..] == [written[|old(written)|], written[|old(written)| + 1], written[|old(written)| + 2]];
      FilesAppend(old(written), written[|old(written)|..]);
    }

    /** The similarity gate of `run`: a revision too far from the draft is blended back into it. */
    method Gate(original: string, revised: string, minJaccard: real, minRatio: real) returns (gated: string)
      ensures gated == Gated(original, revised, minJaccard, minRatio, ratio(original, revised), variant)
    {
      gated := revised;
      if !SimilarEnough(original, revised, minJaccard, minRatio, ratio(original, revised)) {
        gated := BlendWithOriginal(original, revised, variant);
      }
    }

    /** One revision round of `run`: revise, gate, enforce the length, write the draft and the reflection. */
    method RevisionRound(draft: string, iteration: nat) returns (result: string)
      requires Valid()
      modifies this`termPos, this`written
      ensures var revised := Revised(draft, iteration, audience, register, variant);
        (result, termPos) == LengthEnforced(Gated(draft, revised, 0.75, 0.88, ratio(draft, revised), variant),
                                            wordCount, variant, topic, terminologyCache, old(termPos))
      ensures written == old(written) + RoundArtifacts(iteration, result)
    {
      result := Revise(draft, iteration);
      WriteRound(iteration, result);
    }

    /** The files of revision round `iteration`: the draft twice, then the reflection notes. */
    function RoundArtifacts(iteration: nat, text: string): (r: seq<Artifact>)
      ensures Files(r) == RoundFiles(iteration)
    {
      FilesOfThree(TextFile(outputDir, IterationTxt(iteration + 1), text), TextFile(outputDir, CurrentText, text),
                   TextFile(outputDir, ReflectionTxt(iteration + 1), Join("\n", ReflectionLines(iteration, tone, audience))));
      [TextFile(outputDir, IterationTxt(iteration + 1), text),
       TextFile(outputDir, CurrentText, text),
       TextFile(outputDir, ReflectionTxt(iteration + 1), Join("\n", ReflectionLines(iteration, tone, audience)))]
    }

    /** The text of a revision round: revised, gated at 0.75 and 0.88, its length enforced. */
    method Revise(draft: string, iteration: nat) returns (result: string)
      requires Valid()
      modifies this`termPos
      ensures var revised := Revised(draft, iteration, audience, register, variant);
        (result, termPos) == LengthEnforced(Gated(draft, revised, 0.75, 0.88, ratio(draft, revised), variant),
                                            wordCount, variant, topic, terminologyCache, old(termPos))
    {
      var revised := ReviseDraft(draft, iteration, audience, register, variant);
      var gated := Gate(draft, revised, 0.75, 0.88);
      result := EnforceLength(gated);
    }

    /** The writes of a revision round; the reflection notes are never empty, so they are always written. */
    method WriteRound(iteration: nat, text: string)
      modifies this`written
      ensures written == old(written) + RoundArtifacts(iteration, text)
    {
      var draftName := IterationTxt(iteration + 1);
      WriteText(outputDir, draftName, text);
      WriteText(outputDir, CurrentText, text);
      var reflection := ReflectionNotes(iteration, tone, audience);
      if reflection != [] {
        WriteText(outputDir, ReflectionTxt(iteration + 1), reflection);
      }
      WrittenThree(old(written), TextFile(outputDir, draftName, text), TextFile(outputDir, CurrentText, text),
                   TextFile(outputDir, ReflectionTxt(iteration + 1), reflection));
    }
}
}
