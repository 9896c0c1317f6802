# WordSmith core in Dafny

WordSmith writes German marketing and editorial texts. It has four parts:

- The command line (`cli.py`) normalises the user's arguments. It can also read them from a JSON settings file.
- A configuration layer (`wordsmith/config.py`) holds the sampling parameters of the language model and the run's limits.
- An offline `WriterAgent` (`wordsmith/agent.py`) runs a fixed pipeline without a model:
  1. a briefing;
  2. an idea with one bullet per note;
  3. an outline whose word budgets are balanced against the requested length;
  4. a first draft composed section by section under those budgets;
  5. a rubric check, and a fix when the check finds issues;
  6. exactly `iterations` revision rounds, each guarded by a similarity gate that blends a revision that drifted too far back into the draft;
  7. the metadata and the logs.

  Every stage writes its files.
- The Ollama client (`wordsmith/llm.py`) does the following:
  - builds the request;
  - refuses any payload that still holds an unresolved `{placeholder}`;
  - prepares the sampling options;
  - reads the reply, whether one JSON object or several streamed ones.

The project models each of these as it is written, except where a finding below corrects the code and the correction is used instead.

- Configuration layer:
  - The parameter object and the configuration are Dafny classes. Their fields are updated by methods.
  - Each method is proved against a function of the old state.
- Agent:
  - `Agent.WriterAgent` keeps the per-run state: the term cycle, the idea bullets, the placeholder and sources flags, the set of used keywords, the list of steps, and the log of files written.
  - Its methods are proved against the functional description in `Composition`, `Drafting` and `Outline`.
- Command line:
  - The normalisers are functions. `_parse_keywords`, the settings-file loader and the argument splice are methods with loops.
  - The progress printer is a class.
- Ollama client:
  - The placeholder scan is a class that accumulates what it finds.
  - The rest is functions.

Modules:

| Module | Covers |
|---|---|
| `Common` | option and result types |
| `Strings` | Python's `strip`, `lower`, `split(sep)`, `join`, `replace`, `in`, sorting and case-insensitive de-duplication |
| `WordSplit` | whitespace `split()`, word counts and sentence splitting |
| `Numerals` | `int()` and `str()` of integers |
| `Json` | JSON-like values, dictionaries and Python's coercions of them |
| `Outline` | the outline builders and the balancer |
| `Drafting` | the rubric, headings, register, variant spelling, the similarity gate, blending, revision and length enforcement |
| `Composition` | the term cycle, keyword injection, section composition, briefing and idea, rubric fixes and the files of a run |
| `Agent` | the `WriterAgent` class |
| `Cli` | the command-line normalisers and the progress printer |
| `Configuration` | `LLMParameters`, `Config` and the merge of a configuration file |
| `Llm` | the payload check, the options, the reply parser and the provider dispatch |

## Model

| member | source | states |
|---|---|---|
| Agent.WriterAgent.constructor | wordsmith/agent.py:73-82 | the agent starts with the given request, the config's directories, stripped non-blank SEO keywords, an empty term cache, no idea bullets, cleared flags and nothing written |
| Agent.CreationError | wordsmith/agent.py:73-78 | construction fails exactly when the word count is not positive or the iteration count is negative, with the message of the first failing check |
| Agent.WriterAgent.Create | wordsmith/agent.py:73-82 | an agent is created exactly when the counts are valid, otherwise the matching error is returned |
| Agent.WriterAgent.TakeTerms | wordsmith/agent.py:486-493 | the terms handed out are the next `count` of the cycle over the cache and the cycle advances by as many; nothing is drawn from an empty cache |
| Agent.WriterAgent.InjectKeyword | wordsmith/agent.py:495-504 | the sentences and the used-keyword set become what injecting one sentence for the first unused keyword gives |
| Agent.WriterAgent.ExpansionSentenceFor | wordsmith/agent.py:472-478 | the expansion sentence names the section title, the next message and one term drawn from the cycle, which advances by one |
| Agent.WriterAgent.AdjustSectionToBudget | wordsmith/agent.py:443-470 | the popping, truncating and growing loops produce the budgeted section and the cycle position of the reference definition |
| Agent.WriterAgent.LeadSentencesFor | wordsmith/agent.py:378-411 | the opening, focus and idea sentences and the placeholder sentence (only when not yet inserted) are produced, and the placeholder then counts as inserted |
| Agent.WriterAgent.KeywordAndSourcesFor | wordsmith/agent.py:413-418 | the keyword sentence is added when keywords exist and the sources note once per run when sources are not allowed; the flags record it |
| Agent.WriterAgent.SectionSentencesFor | wordsmith/agent.py:378-428 | the sentence list handed to the budget step is the reference one, with the placeholder, keyword and sources state updated |
| Agent.WriterAgent.DrawSentences | wordsmith/agent.py:378-428 | two terms are drawn from the cycle and the section's sentences are built around them |
| Agent.WriterAgent.ComposeSection | wordsmith/agent.py:370-432 | the heading-plus-text, the summary and the new per-run state equal the reference composition of the section |
| Agent.WriterAgent.GenerateStep | wordsmith/agent.py:358-367 | one more paragraph is drafted and the state and summary are handed to the next section |
| Agent.WriterAgent.GenerateParagraphs | wordsmith/agent.py:356-367 | every section is drafted in order, each linked to the previous section's summary |
| Agent.WriterAgent.GenerateSections | wordsmith/agent.py:355-368 | the draft is the paragraphs of the reference drafting joined by blank lines |
| Agent.WriterAgent.EnforceLength | wordsmith/agent.py:536-553 | the text and cycle position are those of the reference length enforcement |
| Agent.WriterAgent.SplitContentIntoSentences | wordsmith/agent.py:509-515 | the result is the stripped non-empty pieces between full stops |
| Agent.WriterAgent.ExtractKeyTerms | wordsmith/agent.py:517-525 | the result is the sorted set of long note tokens and long topic words |
| Agent.WriterAgent.CollectTokenTerms | wordsmith/agent.py:519-522 | the loop collects exactly the long cleaned tokens |
| Agent.WriterAgent.NormalizeBriefing | wordsmith/agent.py:145-170 | the cache holds the key terms (or the lowered topic), the cycle restarts on it, the briefing is built from it and "briefing" is appended to the steps |
| Agent.WriterAgent.ImproveIdea | wordsmith/agent.py:172-203 | the bullets are those of the notes, the idea text is built from them and "idea" is appended to the steps |
| Agent.WriterAgent.OutlineTerms | wordsmith/agent.py:282 | the list the outline cycles through is never empty and is the cache whenever the cache has terms |
| Agent.WriterAgent.CreateOutline | wordsmith/agent.py:205-210 | the outline is the plan for the word count, focused on the terms, then balanced, and "outline" is appended to the steps |
| Agent.WriterAgent.ApplyTextTypeFix | wordsmith/agent.py:578-596 | every issue's fix is applied in turn, then the similarity gate and the variant spelling; the keywords of keyword issues, read with the corrected reading, are marked used |
| Agent.WriterAgent.WriteText | wordsmith/agent.py:686-687 | one text artifact is appended to the log of files written |
| Agent.WriterAgent.WriteJson | wordsmith/agent.py:683-684 | one JSON artifact is appended to the log |
| Agent.WriterAgent.WriteMetadata | wordsmith/agent.py:689-703 | `metadata.json` holds the request, the final word count and the rubric verdict |
| Agent.WriterAgent.RevisionLog | wordsmith/agent.py:726-727 | one "Revision" line per round |
| Agent.WriterAgent.WriteLogs | wordsmith/agent.py:705-757 | `run.log` and `llm.log` are appended, in that order; `llm.log` holds the provider, the `asdict` dump of the sampling parameters, the system prompt, the request fields, the briefing's messages and the outline |
| Agent.WriterAgent.Run | wordsmith/agent.py:87-140 | the steps grow by briefing, idea and outline; the files appear in the order of the pipeline; the fixes run exactly when the first draft has issues; a draft without issues passes; with no issues and no rounds the first draft is returned; the returned draft is the last one written |
| Agent.WriterAgent.BriefingStep | wordsmith/agent.py:96-97 | `briefing.json` is written as the run's next file |
| Agent.WriterAgent.IdeaStep | wordsmith/agent.py:99-100 | `idea.txt` is written as the run's next file |
| Agent.WriterAgent.OutlineStep | wordsmith/agent.py:102-105 | `outline.txt` and `iteration_00.txt` are written as the run's next files |
| Agent.WriterAgent.AfterOutline | wordsmith/agent.py:107-140 | from the first draft on, the run writes the draft files and then the rubric, revision and closing files |
| Agent.WriterAgent.DraftTurn | wordsmith/agent.py:107-110 | the first draft is written to `current_text.txt` and `iteration_01.txt` |
| Agent.WriterAgent.AfterDraft | wordsmith/agent.py:112-140 | once the first draft is written, the fix runs exactly when the draft has issues; then exactly `iterations` rounds and the closing files follow |
| Agent.WriterAgent.AfterRubric | wordsmith/agent.py:124-140 | exactly `iterations` rounds of files follow, then the metadata and the two logs; with no rounds the draft is unchanged |
| Agent.WriterAgent.OutlineArtifacts | wordsmith/agent.py:103-105 | the outline is written once as the outline and once as iteration 0 |
| Agent.WriterAgent.BriefingStage | wordsmith/agent.py:96-97 | the normalised briefing is computed and then written as `briefing.json` |
| Agent.WriterAgent.IdeaStage | wordsmith/agent.py:99-100 | the idea is computed and then written as `idea.txt` |
| Agent.WriterAgent.OutlineStage | wordsmith/agent.py:102-105 | the outline is computed and written to its two files |
| Agent.WriterAgent.FirstDraft | wordsmith/agent.py:107-108 | the first draft is the generated sections with the length enforced |
| Agent.WriterAgent.WriteDraft | wordsmith/agent.py:109-110 | a new draft is appended as `current_text.txt` and `iteration_01.txt` |
| Agent.WriterAgent.DraftArtifacts | wordsmith/agent.py:109-110 | a new draft goes to `current_text.txt` and then `iteration_01.txt` |
| Agent.WriterAgent.RubricFix | wordsmith/agent.py:114-117 | the fixed text passes the similarity gate at 0.8 and 0.9 twice and then has its length enforced |
| Agent.WriterAgent.RubricStep | wordsmith/agent.py:112-122 | a draft without issues passes unchanged with nothing written; otherwise it is fixed, written again, and the second check gives the verdict |
| Agent.WriterAgent.RubricTurn | wordsmith/agent.py:112-122 | the draft is written again exactly when it was fixed, and the last current text is the returned draft |
| Agent.WriterAgent.Revisions | wordsmith/agent.py:124-136 | exactly `iterations` rounds are written; with no rounds nothing is written and the draft is unchanged |
| Agent.WriterAgent.RevisionStep | wordsmith/agent.py:124-136 | after round `i` the files of rounds 1 to `i` have been written and the current text is the round's draft |
| Agent.WriterAgent.Close | wordsmith/agent.py:138-139 | `metadata.json`, `run.log` and `llm.log` are written, in that order |
| Agent.WriterAgent.Gate | wordsmith/agent.py:125-126 | a revision that is not similar enough is blended back into the draft |
| Agent.WriterAgent.RevisionRound | wordsmith/agent.py:124-136 | the draft is revised, gated at 0.75 and 0.88, length-enforced, and written as iteration, current text and reflection |
| Agent.WriterAgent.RoundArtifacts | wordsmith/agent.py:128-134 | round `i` writes `iteration_{i+1}`, `current_text.txt` and `reflection_{i+1}` |
| Agent.WriterAgent.Revise | wordsmith/agent.py:125-127 | a round's text is revised, gated and length-enforced |
| Agent.WriterAgent.WriteRound | wordsmith/agent.py:128-134 | the reflection notes are never empty, so each round writes all three files |
| Composition.CycleTakeSpec | wordsmith/agent.py:486-493 | the `i`-th term taken is the one at position `pos + i`, wrapping around the list |
| Composition.CycleTakeSplit | wordsmith/agent.py:486-493 | taking `a` terms and then `b` more is the same as taking `a + b` |
| Composition.TakenSpec | wordsmith/agent.py:486-493 | an empty cache yields nothing and does not advance; otherwise exactly `n` terms in cycle order |
| Composition.FirstUnusedIndex | wordsmith/agent.py:499-501 | the index found is the first keyword whose lower-cased form is unused; all before it are used |
| Composition.InjectedSpec | wordsmith/agent.py:495-504 | at most one sentence is appended, for the first unused keyword, and only that keyword joins the used set; if every keyword is used nothing changes |
| Composition.CtaSatisfiesRubric | wordsmith/agent.py:434-441 | the call to action holds "Nutze" in the Du register and "Nutzen Sie" otherwise, which is what the rubric looks for |
| Composition.GrownSpec | wordsmith/agent.py:465-468 | growing only appends and stops at the first length of at least the lower bound |
| Composition.AdjustedSectionSpec | wordsmith/agent.py:443-470 | the section has at least the lower bound of words; if one sentence alone is over the upper bound it is cut to exactly the upper bound; within both bounds the sentences are kept as they are |
| Composition.ComposedSectionSpec | wordsmith/agent.py:370-432 | after a section the placeholder counts as inserted, the sources note as used exactly when due, at most one keyword has been added, and two terms have been drawn |
| Composition.PlaceholderOnce | wordsmith/agent.py:407-411 | the placeholder sentence is in a section exactly when no earlier section inserted it |
| Composition.DraftedStart | wordsmith/agent.py:356-357 | nothing is drafted before the first section |
| Composition.DraftedStep | wordsmith/agent.py:358-367 | each section appends its paragraph and hands its summary to the next |
| Composition.DraftedAll | wordsmith/agent.py:368 | once all sections are drafted, the draft is the paragraphs joined by blank lines |
| Composition.ComposedFrom | wordsmith/agent.py:378-432 | the section is its heading, a newline and the budgeted body of its sentences |
| Composition.ComposedHeading | wordsmith/agent.py:378 | every section's text opens with its `## number. title (role)` heading |
| Composition.DraftedSpec | wordsmith/agent.py:355-368 | there is one paragraph per drafted section, each opening with its heading, and the placeholder and sources flags are set as due |
| Composition.DraftHasHeading | wordsmith/agent.py:355-368 | a draft of a non-empty outline has a heading marker, so it passes the rubric's heading check |
| Composition.DraftProgress | wordsmith/agent.py:355-368 | after a whole non-empty outline the placeholder counts as inserted and the sources note as used once due |
| Composition.Messages | wordsmith/agent.py:152-154 | the briefing's messages are never empty: the notes' lines or the clarification placeholder |
| Composition.IdeaBullets | wordsmith/agent.py:173-187 | there is always at least one idea bullet |
| Composition.IdeaBulletsSpec | wordsmith/agent.py:173-187 | there is one bullet per sentence of the notes, in order, or only the fallback when the notes have none |
| Composition.KeyTermSetSpec | wordsmith/agent.py:517-525 | every key term is longer than four characters |
| Composition.BriefingTerms | wordsmith/agent.py:146-150 | the cached terms are never empty |
| Composition.KeyTermsSpec | wordsmith/agent.py:517-525 | the key terms are sorted without repeats, are exactly the collected terms, and are each longer than four characters |
| Composition.FixedByKeyword | wordsmith/agent.py:581-584 | with the corrected reading of the issue, a keyword issue's fix adds a sentence naming the whole keyword and marks exactly that keyword used |
| Composition.HeadingIssueRouting | wordsmith/agent.py:581-586 | the heading issue reaches the heading fix and not the keyword fix |
| Composition.DuCtaIssueRouting | wordsmith/agent.py:581-588 | the Du call-to-action issue reaches the call-to-action fix |
| Composition.SieCtaIssueRouting | wordsmith/agent.py:581-588 | the Sie call-to-action issue reaches the call-to-action fix |
| Composition.FixedByHeading | wordsmith/agent.py:585-586 | the heading fix leaves a heading marker |
| Composition.FixedByCta | wordsmith/agent.py:587-588 | the call-to-action fix appends the phrase the rubric looks for in the register |
| Composition.Files | wordsmith/agent.py:683-687 | the log names one file per artifact written |
| Composition.FilesAppend | wordsmith/agent.py:683-687 | the names of two logs written one after the other are the two name lists in turn |
| Composition.PreparedFiles | wordsmith/agent.py:96-140 | the run's files are its first four files and then the rest, in order |
| Composition.RevisionFiles | wordsmith/agent.py:124-136 | the revision rounds write three files each |
| Composition.RevisionFilesSpec | wordsmith/agent.py:124-136 | exactly `iterations` rounds are written, round `i` at positions `3(i-1)` to `3i` |
| Composition.RevisionLines | wordsmith/agent.py:726-727 | `run.log` has one line per revision round |
| Drafting.EnsureVariantSpec | wordsmith/agent.py:527-531 | for DE-AT and DE-CH no `ß` remains; applying the rule twice changes nothing; the word count is kept and each word is respelled |
| Drafting.ApplyRegisterNoOp | wordsmith/agent.py:646-649 | a text without the pronoun to replace is left as it is |
| Drafting.RubricHead | wordsmith/agent.py:559-568 | the structure and register checks can only raise their four issues |
| Drafting.RubricTail | wordsmith/agent.py:572-575 | the call-to-action checks can only raise their two issues |
| Drafting.CheckTextType | wordsmith/agent.py:558-576 | the text passes exactly when no issue is found |
| Drafting.TextTypeIssuesSpec | wordsmith/agent.py:558-576 | missing headings are one issue; a missing closing is one issue; a keyword is reported exactly when its lower-cased form is absent from the lower-cased text |
| Drafting.MissingKeywordsIff | wordsmith/agent.py:569-571 | a keyword issue appears exactly for a listed keyword missing from the lowered text |
| Drafting.KeywordOfIssueRoundTrip | wordsmith/agent.py:569-584 | reading the keyword back from its issue gives the keyword, apostrophes included |
| Drafting.IssueKeywordAsWrittenPlain | wordsmith/agent.py:582 | the source's reading is right for a keyword without an apostrophe |
| Drafting.IssueKeywordAsWrittenCut | wordsmith/agent.py:582 | the source's reading cuts "Rock'n'Roll" to "Rock" |
| Drafting.KeywordReadingsDiffer | wordsmith/agent.py:582-584 | on "Rock'n'Roll" the corrected reading returns the whole keyword and the source's reading another one |
| Drafting.EnsureHeadings | wordsmith/agent.py:598-609 | the loop rewrites the text line by line to the reference result |
| Drafting.EnsuredHeadingsMarked | wordsmith/agent.py:598-609 | afterwards the text has a heading marker, so the heading check passes |
| Drafting.SimilarEnoughSpec | wordsmith/agent.py:611-626 | a blank side passes; otherwise the revision passes exactly when it keeps at least `min_jaccard` of the original's lower-cased words and the ratio reaches `min_ratio` |
| Drafting.SimilarEnoughCovering | wordsmith/agent.py:611-626 | a revision that keeps every token of the original passes the overlap test, so only the ratio decides |
| Drafting.BlendWithOriginal | wordsmith/agent.py:628-636 | the loop appends the revision's new sentences to the original's, in variant spelling |
| Drafting.BlendSentencesSpec | wordsmith/agent.py:628-636 | the original sentences stay a prefix; every non-empty revision sentence ends up in the result; nothing appended repeats an earlier sentence; nothing else is added |
| Drafting.BlendResplits | wordsmith/agent.py:628-644 | the merged text splits back into the merged sentences |
| Drafting.ReviseDraft | wordsmith/agent.py:651-666 | the `seen` loop gives the reference revision |
| Drafting.RevisedSentences | wordsmith/agent.py:651-666 | the kept sentences keep their order, repeat no sentence ignoring case, and still cover every sentence of the draft ignoring case |
| Drafting.ReflectionLines | wordsmith/agent.py:668-678 | the notes are a header and three numbered points |
| Drafting.ReflectionNotes | wordsmith/agent.py:668-678 | the notes are the lines joined by newlines and are never empty |
| Drafting.BudgetLower | wordsmith/agent.py:450 | a section's lower bound is at least one word |
| Drafting.BudgetUpper | wordsmith/agent.py:451 | the upper bound is never below the lower bound |
| Drafting.PoppedSpec | wordsmith/agent.py:455-458 | popping keeps a non-empty prefix, stops at one sentence or within the bound, and drops a sentence only while the text with it is over the bound |
| Drafting.FirstWordsSpec | wordsmith/agent.py:460-463 | truncation keeps exactly the first `n` words |
| Drafting.MaxWordsPositive | wordsmith/agent.py:540-541 | the length band is non-empty and its maximum is at least one |
| Drafting.EnforcedLengthSpec | wordsmith/agent.py:536-553 | whitespace comes back unchanged; a long text keeps exactly its first maximum-many words; a text in the band keeps its words; a short one gains the filler's words; all are respelled for the variant |
| Outline.FormatLines | wordsmith/agent.py:352-353 | one line per section |
| Outline.FormatOutlineLines | wordsmith/agent.py:352-353 | sections without line breaks become exactly one outline line each |
| Outline.BuildOutlineCovers | wordsmith/agent.py:212-278 | the plan has three sections below 360 words and four otherwise; it opens with the hook and closes with the call to action; every budget is at least 50; together they cover the word count |
| Outline.ImprovedOutline | wordsmith/agent.py:280-297 | there is one improved section per section |
| Outline.ImproveOutline | wordsmith/agent.py:280-297 | the loop gives the reference improved outline |
| Outline.ImprovedMentionsTerm | wordsmith/agent.py:280-297 | only the deliverables change; each keeps its text as a prefix and mentions its focus term ignoring case |
| Outline.CleanOutline | wordsmith/agent.py:299-350 | the accumulating loop, the balancing loop and the last-entry overwrite give the reference cleaned outline |
| Outline.FloorBudgets | wordsmith/agent.py:303-317 | every budget is floored at 60 and the total is summed |
| Outline.SpreadDifference | wordsmith/agent.py:319-336 | each section gets the per-section share, and the first `remainder` one word more |
| Outline.CleanedShape | wordsmith/agent.py:299-350 | the length is kept (so empty stays empty), as are each entry's number, title, role and deliverable, and every budget is at least 60 |
| Outline.SettledCovers | wordsmith/agent.py:338-348 | the last-entry adjustment never leaves the total below the word count, and changes nothing when the total is already exact |
| Outline.SumSpread | wordsmith/agent.py:321-336 | the spread adds `per * n + min(n, remainder)` words in all |
| Outline.CleanedCovers | wordsmith/agent.py:319-348 | after cleaning, the total is never below the word count |
| Outline.CleanedExact | wordsmith/agent.py:319-348 | when the floored budgets sum to at most the word count, the result sums to it exactly |
| Outline.CleanedCanExceed | wordsmith/agent.py:338-348 | three minimal sections cannot shrink to a 100-word target: the total stays at 180 |
| WordSplit.SplitSentencesShape | wordsmith/agent.py:638-644 | every sentence is non-empty, has no newline, and ends with its only full stop |
| WordSplit.SentencesRoundTrip | wordsmith/agent.py:638-644 | sentences joined by spaces split back into themselves |
| WordSplit.SentencePiecesShape | wordsmith/agent.py:509-515 | every piece of the notes is non-empty and stripped, with no full stop or newline |
| WordSplit.CountWordsJoin | wordsmith/agent.py:533-534 | the word counts of two texts joined by a space add up |
| WordSplit.WordsOfJoin | wordsmith/agent.py:461-462 | words joined by single spaces split back into themselves |
| Strings.SortedElems | wordsmith/agent.py:525 | `sorted` of a set returns its elements ascending, each once |
| Strings.DedupCorrect | cli.py:134-143 | de-duplication keeps order, leaves no case duplicates, avoids `seen`, and covers every lower-cased form of the input |
| Cli.ParseBool | cli.py:117-127 | true and false exactly for their word lists after trimming and lower-casing; anything else is an error |
| Cli.ParseBoolText | cli.py:251-253 | the "true"/"false" written for `sources_allowed` reads back as the same value |
| Cli.ParseBoolPadded | cli.py:117-127 | " JA " reads as yes |
| Cli.ParseBoolNein | cli.py:117-127 | "Nein" reads as no |
| Cli.ParseBoolUnknown | cli.py:117-127 | "vielleicht" is refused |
| Cli.ParseKeywords | cli.py:130-144 | the `seen` loop gives the reference keyword list |
| Cli.KeywordsShape | cli.py:130-144 | empty input gives no keywords; every keyword is non-empty, stripped and comma-free; there are no case duplicates; input order is kept; the first spelling of each piece is present |
| Cli.KeywordsRoundTrip | cli.py:225-234 | re-parsing the comma-joined keywords gives the same list |
| Cli.ParseRegister | cli.py:157-167 | blank input is ""; "sie"/"du" in any case become "Sie"/"Du"; anything else is an error |
| Cli.ParseRegisterIdempotent | cli.py:157-167 | normalising a register twice changes nothing |
| Cli.ParseRegisterPadded | cli.py:157-167 | "  SIE " is the polite register |
| Cli.ParseRegisterUnknown | tests/test_cli.py:344-362 | "freundschaftlich" is refused |
| Cli.ParseVariant | cli.py:170-180 | blank input is ""; otherwise the upper-cased value must be DE-DE, DE-AT or DE-CH |
| Cli.VariantShape | wordsmith/defaults.py:18-19 | every supported variant is `DE-` and two capital letters |
| Cli.ParseVariantIdempotent | cli.py:170-180 | normalising a variant twice changes nothing |
| Cli.ParseVariantAustria | cli.py:170-180 | "de-at" is DE-AT |
| Cli.ParseVariantUnknown | tests/test_cli.py:365-383 | "de-lu" is refused |
| Cli.ParseIterations | cli.py:188-204 | blank input is refused with its message; a result is a non-negative parsed integer; negative and non-numeric input is refused |
| Cli.ParseIterationsOfInt | cli.py:188-204 | a decimal count reads back as itself, and a negative one is refused as negative |
| Cli.KeywordListAccepts | cli.py:225-234 | a keyword setting may only be a string, a list or an object |
| Cli.FormatKeywordsReparse | cli.py:225-234 | the formatted argument parses back to the value's keyword list |
| Cli.SettingTokensSpec | cli.py:237-259 | unknown keys and null required settings are refused; other nulls give no tokens; the compliance flag is the option alone or nothing; every value token parses back to what the file said |
| Cli.LoadInputFile | cli.py:262-284 | the loop extends the tokens entry by entry to the reference result |
| Cli.EntryTokensAccepted | cli.py:262-284 | every key of a file that loads is a known option with an acceptable value |
| Cli.FlagIndicesExact | cli.py:292 | the positions found are exactly those of the flag, as many as it occurs |
| Cli.ExpandWithInputFile | cli.py:287-309 | the comprehension and splice give the reference expansion |
| Cli.ExpandedCases | cli.py:287-309 | with no flag or the flag last the arguments are unchanged; a repeated flag is refused; otherwise the file's tokens follow the first argument |
| Cli.ExpandedShape | cli.py:308-309 | after a successful expansion the first argument stays first and the original remaining arguments come last |
| Cli.ProgressPrinter.constructor | cli.py:59-62 | the total is at least one and nothing is completed or printed |
| Cli.ProgressPrinter.Notify | cli.py:64-85 | a completing event advances the count up to the total and its line is written |
| Cli.CountAfterAllCapped | cli.py:64-78 | after any run of events the count is the number of completing events, capped at the total |
| Configuration.StopEntriesClean | wordsmith/config.py:114-122 | a list's stops are stripped, non-empty and no more than its entries |
| Configuration.NormaliseStopClean | wordsmith/config.py:108-125 | only null, a string or a list is accepted, and the stops are clean |
| Configuration.UpdateAllAt | wordsmith/config.py:72-100 | `update` is that entry's step followed by the rest |
| Configuration.LLMParameters.Raw | wordsmith/config.py:36-46 | the fields are as given and no override is recorded |
| Configuration.LLMParameters.Create | wordsmith/config.py:48-70 | the stop argument is normalised (a bad one is refused), then exactly the fields that differ from the defaults are recorded as overrides |
| Configuration.LLMParameters.RecordInitialOverrides | wordsmith/config.py:55-70 | the changed fields are added to the overrides |
| Configuration.LLMParameters.Store | wordsmith/config.py:84-100 | the field takes the coerced value, or nothing changes and the coercion error is returned |
| Configuration.LLMParameters.StoreInt | wordsmith/config.py:84-99 | the same, for the optional integer fields |
| Configuration.LLMParameters.StoreFloat | wordsmith/config.py:84-99 | the same, for the float fields |
| Configuration.LLMParameters.Update | wordsmith/config.py:72-100 | the entries are applied in order and the update stops at the first bad one |
| Configuration.LLMParameters.Determinise | wordsmith/config.py:172-179 | the sampling updates of the word-count adjustment |
| Configuration.DefaultsRecordNothing | wordsmith/config.py:55-70 | the defaults record no override |
| Configuration.InitialOverridesExact | wordsmith/config.py:55-70 | a field is recorded exactly when it differs from its default |
| Configuration.UpdateAliases | wordsmith/config.py:75-81 | `max_tokens` sets `num_predict` and `context_length` sets `num_ctx`, both as overrides |
| Configuration.UpdateRejectsUnknown | wordsmith/config.py:75-83 | an unknown name stops `update` with `ConfigError` and changes nothing |
| Configuration.UpdateMarksOverrides | wordsmith/config.py:72-105 | overrides only grow, and after a successful update `has_override` holds for every entry |
| Configuration.UpdateKeepsPrefix | wordsmith/config.py:72-100 | entries before a failing one stay applied, so the update is not atomic |
| Configuration.DefaultsWithinLimits | wordsmith/config.py:139-140 | the default settings already meet the minimum limits; only `num_ctx` is synchronised |
| Configuration.MinimumLimitsBounds | wordsmith/config.py:198-204 | the context is at least 2048 and the token limit at least 1024; the context never shrinks; `num_ctx` is in step; applying the limits twice changes nothing |
| Configuration.AdjustForWordCountSpec | wordsmith/config.py:156-179 | a non-positive count is refused; otherwise the context is exactly `max(8192, 4·wc)` and the token limit `max(8192, ⌊1.9·wc⌋)`, at least the word count; both penalties are 0.05 and the seed 42; `num_predict`/`num_ctx` follow the windows unless overridden; nothing else changes |
| Configuration.ParamsDumpRoundTrip | wordsmith/config.py:35-46 | the `asdict` dump of the parameters, fed back to `update`, restores every field and marks all eight as set by the user |
| Configuration.ApplyConfigDataAt | wordsmith/config.py:207-244 | the merge is that entry and then the rest, unless the entry failed |
| Configuration.ApplyConfigDataBounds | wordsmith/config.py:207-244 | after a successful merge the limits are met and `num_ctx` is in step |
| Configuration.SystemPromptClean | wordsmith/config.py:221-226 | a stored system prompt is stripped and non-empty |
| Configuration.ApplyConfigItemRejects | wordsmith/config.py:235-241 | unknown keys and negative query counts raise `ConfigError` and change nothing |
| Configuration.ApplyConfigDataStops | wordsmith/config.py:210-244 | the entries before a failing one stay applied, and the minimum limits are skipped |
| Configuration.Config.Raw | wordsmith/config.py:128-143 | the fields are as given |
| Configuration.Config.Create | wordsmith/config.py:145-154 | the minimum limits are applied to the settings and the shared parameters; a negative query count is refused, but the parameters keep the change |
| Configuration.Config.ApplyMinimumLimits | wordsmith/config.py:198-204 | the state becomes its minimum-limited form |
| Configuration.Config.AdjustForWordCount | wordsmith/config.py:156-179 | a non-positive count is refused and changes nothing; otherwise the state becomes the adjusted one |
| Configuration.SetText | wordsmith/config.py:211-220 | path and text entries set their attribute |
| Configuration.ApplyItem | wordsmith/config.py:207-244 | one entry is merged as the reference merge says |
| Configuration.UpdateConfigFromDict | wordsmith/config.py:207-244 | the entries are merged in order and the merge stops at the first bad one |
| Llm.NextBrace | wordsmith/llm.py:16 | the next brace is found at or after the start |
| Llm.NextBraceSpec | wordsmith/llm.py:16 | there is no brace before the position found, and a brace at it |
| Llm.TokenEnd | wordsmith/llm.py:16 | a match ends on a closing brace past at least one character |
| Llm.SkipToken | wordsmith/llm.py:57-60 | no match starts inside a matched token, so resuming after it loses nothing |
| Llm.ScanToken | wordsmith/llm.py:57-60 | one step of the scan over a matched token keeps the names found so far |
| Llm.FlaggedAreNames | wordsmith/llm.py:28 | every flagged name consists of lower-case letters, digits, `_`, `.` and `-` |
| Llm.NoBraceNoPlaceholder | wordsmith/llm.py:16 | a string without a brace has nothing unresolved |
| Llm.SinglePlaceholder | wordsmith/llm.py:55-60 | `{name}` is flagged |
| Llm.DoubleBracedIgnored | wordsmith/llm.py:16 | `{{name}}` is not flagged |
| Llm.ProperNounIgnored | wordsmith/llm.py:28 | `{Name}` is not flagged |
| Llm.AdjacentPlaceholders | tests/test_llm.py:186-190 | `{a}{b}` flags a and then b |
| Llm.Sanitiser.constructor | wordsmith/llm.py:53 | nothing unresolved has been found yet |
| Llm.Sanitiser.CheckString | wordsmith/llm.py:56-61 | the scan of one string appends its placeholders, tagged with the path |
| Llm.Sanitiser.Check | wordsmith/llm.py:55-72 | strings are scanned and mappings and lists walked, with `parent.key`, `parent[i]` and `<root>` paths |
| Llm.Sanitiser.CheckFields | wordsmith/llm.py:62-66 | the entries of a mapping are checked in order |
| Llm.Sanitiser.CheckItems | wordsmith/llm.py:67-72 | the items of a list are checked with their indices |
| Llm.SanitisePayload | wordsmith/llm.py:50-94 | the payload is refused exactly when some string in it holds a placeholder |
| Llm.FieldPlaceholderFound | wordsmith/llm.py:62-66 | a placeholder in any entry fails the whole object |
| Llm.StopOptionClean | wordsmith/llm.py:108-119 | the stop option holds stripped, non-empty strings only |
| Llm.PrepareOptionsSpec | wordsmith/llm.py:97-120 | the four sampling controls are always sent; seed and `num_predict` only when set; `num_ctx` never; clean stops |
| Llm.RequestUrlSlashes | wordsmith/llm.py:253 | trailing slashes of the base URL are dropped, and no URL means the local default |
| Llm.NormalisePayloadSpec | wordsmith/llm.py:123-131 | a list context is replaced by its length and every other key is unchanged; without one the payload is unchanged |
| Llm.ExtractResponseFragmentOrder | wordsmith/llm.py:134-159 | a string `response` wins even when empty; then a string `message.content`; then a list `messages` gives the string `content` of its mapping entries, concatenated; anything else gives "" |
| Llm.MessageContentsAppend | wordsmith/llm.py:147-157 | the text of a message list is the texts of its parts, one after the other |
| Llm.MessageContentsSingle | wordsmith/llm.py:150-155 | an entry adds its string `content`, and nothing when it is not a mapping or its content is not a string |
| Llm.ParseOllamaResponse | wordsmith/llm.py:162-207 | the line loop gives the reference parse |
| Llm.FragmentsNonEmpty | wordsmith/llm.py:188-192 | only non-empty fragments are kept |
| Llm.FallbackRedundant | wordsmith/llm.py:194-201 | the fallback to the last payload's fragment never yields text |
| Llm.CombineSpec | wordsmith/llm.py:188-207 | a parse has non-empty stripped text, the stripped join of the fragments, or fails with its message; `response_fragments` is added exactly when there are several |
| Llm.GenerateTextDispatch | wordsmith/llm.py:226-240 | other providers and a missing model fail without a request |
| Llm.PromptPlaceholderBlocks | wordsmith/llm.py:253-264 | a placeholder in the prompt aborts the call before anything is sent |
| Numerals.IntRoundTrip | cli.py:258-259 | `int(str(i)) == i` |
| Numerals.ParseInt | cli.py:194-199 | `int(s)` accepts exactly a trimmed, optionally signed run of ASCII digits with single underscores between digits |
| Numerals.ParseIntGrouped | cli.py:194-199 | `int("1_000")` is 1000 |
| Numerals.ParseIntBadGroups | cli.py:194-199 | a doubled, leading or trailing underscore is refused |
| Numerals.Trunc | wordsmith/agent.py:450-451 | converting a product to `int` truncates toward zero |
| Json.IntStrRoundTrip | cli.py:258-259 | an integer setting written with `str` reads back as itself |
| Json.StrReprPlain | cli.py:259 | a string without quotes, backslashes or control characters is written inside single quotes as it is |
| Json.StrReprApostrophe | cli.py:259 | `str(["it's"])` quotes the string with double quotes |

## Left out

- File and directory I/O. The writes of the agent are an append-only log of artifacts: a directory, a file name, and the text or JSON value. JSON encoding, `ensure_directories`, `cleanup_temporary_outputs` and `load_config` are not part of this model.
- Network and decoding.
  - The HTTP exchange with Ollama is a function parameter returning no connection, undecodable bytes, or a body.
  - `json.loads` of each reply line is a decoder parameter.
  - wordsmith/ollama.py is not part of this model.
- Foreign libraries.
  - `difflib.SequenceMatcher.ratio` is a function handed to the agent at construction.
  - The SHA-256 hash in the placeholder error is a function parameter.
  - Logging is not modelled; only the contents of `run.log` are.
- Unicode. Case mapping covers ASCII and the German umlauts and `ß`; other scripts keep their case. Python's whitespace set is modelled exactly.
- Floats.
  - Sampling parameters are decimal numbers (mantissa and exponent).
  - `float()` reads plain decimal literals only, and `str()` of a float writes the positional form only.
  - `float()` of a string does not accept underscores between digits, which Python's does.
  - The 0.85, 1.05, 0.97, 1.03 and 1.9 factors are integer arithmetic truncated toward zero. This can differ from Python's float rounding at rare edge values.
  - `_format_runtime` is not modelled.
- Agent.WriterAgent.Run: its contract states the order and names of the files written, the rubric and revision decisions and the final draft. The text of each file is stated by the stage methods it calls, not restated in `Run`.
- The `_term_cycle` iterator is the term cache plus a count of the terms handed out. This is the same cycle because the list behind it is always the cache, or the lowered topic while the cache is empty, and nothing is drawn from it in that state.
- Composition.FixedByKeyword: it reads the keyword with the corrected `Drafting.KeywordOfIssue` of the finding below, not with the source's `issue.split("'")[1]`. For a keyword containing an apostrophe, such as `Rock'n'Roll`, the source appends and marks only `Rock`. The second rubric check then still reports the keyword, so the source records `rubric_passed` as false where the model can record true. `Drafting.KeywordReadingsDiffer` shows the two readings differ on that input.
- Agent.WriterAgent.ApplyTextTypeFix: it uses the same corrected reading, and so do `RubricFix`, `RubricStep` and `Run`, which call it. For keywords without an apostrophe the two readings agree (`Drafting.IssueKeywordAsWrittenPlain`).
- Numerals.ParseInt: Python's `int()` also accepts non-ASCII decimal digits, such as Arabic-Indic or full-width digits. The model accepts ASCII digits only.
- Json.Repr: non-ASCII characters are written as they are. Python's `repr` escapes the non-printable ones as `\x`, `\u` or `\U` sequences.
- Configuration.SetText: `output_dir`, `logs_dir` and `prompt_config_path` are kept as the text `str(value)` gives. The normalisation of `Path()`, such as `out/` becoming `out`, is not modelled.
- Configuration.LLMParameters.Update: `hasattr` is modelled as the eight parameter names. The source would also accept the names of the object's methods.
- `llm.log` records the stages and section plans but not the prompt texts, which come from wordsmith/prompts.py. wordsmith/prompts.py is not part of this model.
- The system prompt that the metadata and `llm.log` record is `prompts.SYSTEM_PROMPT`. The model hands it to the agent at construction.
- The reflection notes are never empty, so the model always writes them. The source's guard is proved redundant by `Agent.WriterAgent.WriteRound`.
- CLI plumbing: argparse, the interactive model choice, `_configure_ollama`, the automatic mode and `main` are not modelled.
- The values asserted at tests/test_config.py:39-42 disagree with the code. The test sets temperature 0.7 and `top_p` 0.5 and then expects 0.8 and 0.9, but `adjust_for_word_count` (wordsmith/config.py:156-179) leaves both unchanged. It also expects `presence_penalty` 0.0 and `frequency_penalty` 0.3, where wordsmith/config.py:172-173 sets both to 0.05. The model follows the code.
- Behaviour that only the tests describe is not modelled, because the code shown does not have it. This covers the compliance scan and redaction, the LLM stage calls, `Final-*.txt` and `progress_callback` in the agent.

## Findings

| source | as written | input that shows it | evidently intended | confidence | as-written member | corrected member |
|---|---|---|---|---|---|---|
| wordsmith/agent.py:582 | `issue.split("'")[1]` takes the text up to the keyword's first apostrophe | the issue for the SEO keyword `Rock'n'Roll` gives back `Rock`, so the fix names and marks the wrong keyword | the keyword between the issue's fixed lead and tail | not executed | Drafting.IssueKeywordAsWrittenCut | Drafting.KeywordOfIssueRoundTrip |
