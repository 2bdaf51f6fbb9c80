# SlushPilot back end, modelled in Dafny

SlushPilot helps an author pitch a manuscript. A **strategist** searches a vector index of publisher profiles and has a language model rerank the matches. A **composer** then writes one query letter per chosen publisher. A **supervisor graph** ties the two together: it asks the user for missing manuscript details, merges what an extraction model reads from the user's messages, and decides which worker runs next.

An offline **preprocessing** script builds the index. It streams two book dumps into keyed tables, groups the joined books by publisher, selects each publisher's profile and upserts the profiles in chunks.

This project models the deterministic logic around the model, search and storage calls, and proves what that logic promises. Every language-model reply, embedding, vector-store result, BM25 encoding, configuration value and file listing is an input of the model.

## Modules

| module | what it models |
|---|---|
| `Wrappers` | `Option` and `Result` |
| `Text` | Python's `strip`/`lstrip`/`rstrip`, `lower`, `split` on one character, `join`, `str(int)` and the `{:,}` thousands format |
| `Ranking` | `list.sort(key=…, reverse=True)`, a stable sort largest first, and slicing to the top `k` |
| `ComposerSchema` | the composer's pydantic records and their defaults |
| `Composer` | the letter renderer and its helpers, the numbered publisher block of the batched prompt, matching the model's batch to the publishers, and `compose_query_letters` |
| `StrategistSchema` | the strategist's pydantic records |
| `Strategist` | the service's search-mode choice, the candidate projection, the sort and top five, and the name backfill |
| `StrategistAgent` | the stand-alone strategist script: the same sort and top five, plus its display-name lookup |
| `Confirm` | `parse_confirmation` |
| `Clarify` | the hint table and the user text of `generate_clarification` |
| `QueryLetterGraph` | the supervisor graph as a step relation over a state record, from start to end |
| `Slushpilot` | the demo graph of `Supervisor.py`: the route table, the mock pitch writer and the strategist worker |
| `Preprocess` | row acceptance, the 10000-row insert buffer, grouping by publisher, profile selection and the 100-profile upsert chunks |

### Python semantics

- `strip()` removes the characters space, `\t`, `\n`, `\r`, `\x0b` and `\x0c` from both ends. Unicode whitespace beyond these is not modelled.
- `lower()` is ASCII lower-casing.
- `x or default` treats `None`, `""`, `0` and `[]` alike, and the model does the same.
- A dictionary built by a comprehension keeps the last value for a key. `next(...)` takes the first match.
- `Counter.most_common(n)` is modelled as a stable sort by count, largest first, cut to `n`. A `Counter` is a sequence of (key, count) pairs in first-seen order.
- Integers are unbounded, as in Python.

### Imperative parts

Where the source appends in loops, the model has a `method` with a loop. Those loops are:
- `_sanitize_comps`, the sentence filter and the `lines` list of `render_query_letter`;
- the publisher block;
- the batch lookup and the result loops of `compose_query_letters`;
- `clean_candidates` and the name backfill;
- the ingestion buffer, grouping, profile and upsert loops.

The two validators and the dictionary merge of `_intake_node` are straight-line methods: they append the missing fields, or overwrite the keys, one key at a time.

Each such method is proved equal to a specification function. The lemmas about that function state the properties.

Each graph node returns a partial update, as the source's nodes return partial state dictionaries. `Merge` applies the update. `Step` and `Run` are the graph's transition relation, its run over a sequence of per-step inputs.

### Where the model follows the code rather than the prompt or the documentation

- The supervisor of `Supervisor.py` routes by a model's decision. The three rules in its prompt are text, not code. The lemma `Slushpilot.FollowingTheRules` shows what a run looks like when the model does follow them.
- `PublisherScore.score` is described as 1 to 10, but the bound is not enforced. The model takes any integer.
- `_clarify_node` always ends the run, whatever the prompt text suggests about asking again.

## Model

| member | source | states |
|---|---|---|
| Text.StripSpec | app/agents/composer.py:305 | `strip()` returns a contiguous piece of its input with no whitespace at either end. The piece is empty exactly when the input is blank. |
| Text.StripEmptyIff | app/graphs/query_letter_graph.py:55-62 | A stripped value is empty exactly when the value is blank. This is the validators' `not value.strip()`. |
| Text.StripTrimmed | app/agents/composer.py:305 | A stripped string has no surrounding whitespace, and stripping a trimmed string changes nothing. |
| Text.StripIdempotent | app/agents/composer.py:354 | Stripping twice is stripping once. |
| Text.LStripSpec | app/agents/composer.py:404 | `lstrip` removes all of the leading whitespace and nothing else. |
| Text.RStripSpec | app/agents/composer.py:404 | `rstrip` removes all of the trailing whitespace and nothing else. |
| Text.Lower | app/agents/composer.py:355 | ASCII `lower()` keeps the length. |
| Text.AfterFirst | app/agents/composer.py:357 | `s.split(".", 1)[-1]` is all of `s` when there is no "."; otherwise it is the text after the first ".", and `s` is the part before it, the "." and that text. |
| Text.FirstIndex | app/agents/composer.py:357 | The index found holds the character, and no earlier position does. |
| Text.SplitPieces | app/agents/composer.py:361 | No piece of a split holds the separator. |
| Text.JoinSplit | app/agents/composer.py:361 | Splitting at a character and joining the pieces with it gives the string back. |
| Text.SplitJoin | app/agents/clarify.py:37 | Joining pieces free of the separator and splitting again gives the pieces back. |
| Text.FormatThousandsRoundTrip | app/agents/composer.py:288-289 | Deleting the commas of `f"{n:,}"` gives back `str(n)`, negative numbers included. |
| Text.GroupThousandsRoundTrip | app/agents/composer.py:288-289 | For a natural number, the digit groups without their commas are its decimal digits. |
| Text.GroupThousandsGroups | app/agents/composer.py:288-289 | A natural number's grouped form has digit groups of three after a first group of one to three digits. There is a comma exactly where a multiple of four characters remain. |
| Text.FormatThousandsGroups | app/agents/composer.py:288-289 | The same grouping for any int, after a "-" when it is negative. |
| Text.NatToStringDigits | app/agents/composer.py:371 | `str(n)` of a natural number consists of decimal digits. |
| Ranking.SortDescSpec | app/agents/strategist.py:163 | The sort returns the input's elements, as a multiset, ordered by key with the largest first. |
| Ranking.SortDescStable | app/agents/strategist.py:163 | The sort is stable: for every key, the elements carrying it keep their input order. |
| Ranking.InsertStable | app/agents/strategist.py:163 | Inserting an element puts it after every element already there with an equal key. |
| Ranking.InsertSorted | app/agents/strategist.py:163 | Inserting into a list sorted largest first keeps it sorted. |
| Ranking.TopK | app/agents/strategist.py:163-164 | The top `k` are at most `k` elements and a prefix of the sorted list. They are sorted, and no element left out has a larger key than one kept. |
| Ranking.Take | app/agents/strategist.py:164 | `s[:k]` is the prefix of length `min(k, len(s))`. |
| ComposerSchema.NewPublisher | app/schemas/composer.py:16-20 | A `Publisher` built from a name and comps has no imprints and no special criteria. |
| ComposerSchema.NewRequest | app/schemas/composer.py:23-31 | A request's options default to format "classic_query_letter" with paraphrasing on. |
| ComposerSchema.NewLetterResult | app/schemas/composer.py:34-38 | A letter result's status defaults to "ok". |
| Composer.FormatWordCount | app/agents/composer.py:288-289 | `f"{word_count:,}"` groups the digits in threes. The first group has one to three digits, each later group follows a comma and has exactly three, and a negative count starts with "-". With the commas deleted it is `str(word_count)`. Below 1000 it is exactly `str(word_count)`. |
| Composer.FormatWordCountExample | app/agents/composer.py:288-289 | A word count of 93000 reads "93,000". |
| Composer.JoinCompsCases | app/agents/composer.py:292-299 | `_join_comps` gives "" for no comps and the comp itself for one. Two give "A and B". Three or more are joined by ", " with ", and " before the last. |
| Composer.StrippedNonBlankSpec | app/agents/composer.py:303-308 | The cleaned comps are stripped and non-empty, each the stripped form of an input comp. Every input comp that is not blank appears. |
| Composer.SanitizeComps | app/agents/composer.py:302-311 | `_sanitize_comps` keeps at most three comps: the prefix of the input's stripped, non-blank comps, in input order. |
| Composer.SignoffForTone | app/agents/composer.py:314-324 | The signoff depends only on the stripped, lower-cased tone. "warm_professional" gives "Warmly"; the three other known tones give "Sincerely". Any other tone gives the fallback, or "Sincerely" when the fallback is empty. The result is never empty. |
| Composer.KeptSentencesSpec | app/agents/composer.py:365-373 | A sentence is kept exactly when it is one of the paragraph's and contains neither the title (case-insensitively), the formatted word count nor the raw word count. |
| Composer.FilterSentences | app/agents/composer.py:362-373 | The filter loop computes exactly the kept sentences, in order. |
| Composer.SentencesSpec | app/agents/composer.py:361 | Every sentence of a paragraph is stripped, non-empty and free of ".". |
| Composer.DropLeadSpec | app/agents/composer.py:354-359 | A paragraph opening with "I'm hoping you will consider" or "I am seeking representation" (any case) loses everything up to its first "." (it stays whole if it has no "."). Any other paragraph is only stripped. |
| Composer.CleanParagraphSpec | app/agents/composer.py:353-377 | A cleaned paragraph is the kept sentences of the paragraph, with its lead dropped, rejoined with ". " and stripped. It is "" when nothing is left. |
| Composer.CleanSummaryParagraph | app/agents/composer.py:354-374 | One pass of the summary loop computes the cleaned paragraph. |
| Composer.AppendSummary | app/agents/composer.py:353-377 | The summary loop appends each non-empty cleaned paragraph followed by a blank line. |
| Composer.AppendBlock | app/agents/composer.py:379-382 | The detail paragraph and a blank line are appended only when it is not blank. |
| Composer.AppendComps | app/agents/composer.py:384-391 | The comps sentence is appended exactly when a comp survives sanitising. |
| Composer.RenderQueryLetter | app/agents/composer.py:327-404 | The appending loop of `render_query_letter` builds exactly the specified letter. |
| Composer.LetterFrame | app/agents/composer.py:333-404 | Every letter starts with "Dear Acquisitions Team," and a blank line. It contains the line "I'm hoping you will consider my {genre} novel, {title}, complete at {formatted} words." on its own, and ends with "{signoff}," and the author name. It is never empty. |
| Composer.LetterLayout | app/agents/composer.py:333-402 | The opening line is present exactly when it is not blank, followed by the novel's line. The last two lines are the signoff and the author name. With paraphrasing off, the only summary paragraph is the stripped manuscript summary. The comps line appears exactly when the sanitised comps are non-empty. |
| Composer.AuthorTailIsRStrip | app/agents/composer.py:402-404 | After the final strip, the letter's last line is the author name with its trailing whitespace removed. It vanishes exactly when the name is blank. |
| Composer.LetterNonEmpty | app/agents/composer.py:404 | A rendered letter is never "". |
| Composer.FrameOfLines | app/agents/composer.py:404 | Any lines laid out as the renderer lays them out join, once stripped, into a text with the greeting first, the novel's line inside and the signoff and name last. |
| Composer.PublisherLinesSpec | app/agents/composer.py:225-228 | Line `i` of the publisher block is publisher `i`'s, numbered from 1, with its comps joined by ", " or "None provided". |
| Composer.BuildPublisherBlock | app/agents/composer.py:225-229 | The numbering loop builds the block from those lines joined by line breaks, or "None" if there are none. |
| Composer.PublisherBlockNone | app/agents/composer.py:229 | The block reads "None" exactly when there are no publishers. |
| Composer.PublisherLineStarts | app/agents/composer.py:228 | Every line opens with its number, ". ", the publisher's name and " (comps: ". |
| Composer.PublisherLineNoBreak | app/agents/composer.py:228 | A publisher whose name and comps hold no line break gets a line without one. |
| Composer.PublisherBlockLines | app/agents/composer.py:225-229 | When no name or comp holds a line break, splitting the block at line breaks gives one line per publisher, in order. |
| Composer.BuildBatchedPrompt | app/agents/composer.py:196-285 | With the schema as declared, reading `manuscript.detail_summary` raises. With the two detail fields added, the prompt is always built: it carries the publisher block, the "- Detail summary:" line, and the verbatim instruction exactly when paraphrasing is off. |
| Composer.SectionsForNone | app/agents/composer.py:461-475 | A publisher has no sections exactly when no batch entry carries its name. |
| Composer.SectionsForLast | app/agents/composer.py:461-471 | The sections found come from the last entry with that name, as the dictionary comprehension keeps it. |
| Composer.MatchBatchSpec | app/agents/composer.py:473-479 | There is one (publisher, sections) pair per input publisher, in input order, each with that publisher's entry. When a publisher has no entry, the error names the first such publisher: "Missing letter for publisher: {name}". |
| Composer.GenerateQueryLettersBatch | app/agents/composer.py:473-479 | The lookup loop computes exactly that matching. |
| Composer.Warnings | app/agents/composer.py:491-495 | "comps_missing" is present exactly when the publisher has no comps (none or empty). "personalization_missing" is present exactly when there are no notes. When both are present they come in that order. |
| Composer.CollectWarnings | app/agents/composer.py:491-495 | The two checks of the first loop compute exactly the publisher's warnings. |
| Composer.InitialResultsSpec | app/agents/composer.py:490-503 | Result `i` is publisher `i`'s, with an empty letter, status "ok" and its warnings. |
| Composer.BuildInitialResults | app/agents/composer.py:490-503 | The first loop builds exactly those results. |
| Composer.RenderedLettersNonEmpty | app/agents/composer.py:518-526 | No rendered letter is empty. |
| Composer.LastByNameSpec | app/agents/composer.py:518-526 | Every publisher name of the batch is a key of the letters dictionary, and only non-empty letters are stored. |
| Composer.LastByNameDistinct | app/agents/composer.py:518-526 | With distinct names, each name maps to its own letter. |
| Composer.LettersByNameSpec | app/agents/composer.py:518-526 | Every matched publisher has a letter, and no letter is empty. |
| Composer.LettersByNameDistinct | app/agents/composer.py:518-526 | With distinct names, each name maps to the letter rendered for its own pair. |
| Composer.FillLetters | app/agents/composer.py:527-531 | The lookup loop gives each entry its letter, or marks it "error" and reports "{publisher}: missing letter in batch response". |
| Composer.FillOne | app/agents/composer.py:527-531 | One entry takes its letter. When there is none, it is marked "error", with one message naming its publisher; otherwise no message. |
| Composer.MarkAllFailed | app/agents/composer.py:532-535 | The `except` branch marks every entry "error". |
| Composer.MissingErrorsNone | app/agents/composer.py:529-531 | When every entry's name has a non-empty letter, no missing-letter error is reported. |
| Composer.LoadFewshotExamples | app/agents/composer.py:97-110 | A missing directory and an empty folder list raise their own errors. The input is the text of the "modified" file of each folder that has one, in folder order. Otherwise the examples are those texts stripped, the first four, or all of them when there are fewer. |
| Composer.ComposeQueryLetters | app/agents/composer.py:482-537 | `compose_query_letters` computes exactly the specified response. |
| Composer.ComposeShape | app/agents/composer.py:482-503 | No publishers: the request is refused with "publishers list cannot be empty". A failure to read the examples is passed on. Otherwise there is one result per publisher, in order, carrying that publisher's warnings. |
| Composer.ComposeFailure | app/agents/composer.py:532-535 | Any failure in the batch step marks every entry "error", leaves every letter empty and reports exactly that failure. |
| Composer.ComposeSuccess | app/agents/composer.py:505-531 | When the reply covers every publisher, every entry gets a non-empty letter and keeps status "ok", and no error is reported. So the missing-letter branch never fires. |
| Composer.ComposeLetterIsRendered | app/agents/composer.py:518-528 | With distinct publisher names, each entry's letter is the one rendered for that publisher from the reply's entry for it. |
| Composer.SuccessLetters | app/agents/composer.py:512-526 | A reply covering every publisher yields one non-empty letter per name. |
| Composer.RenderedLettersDistinct | app/agents/composer.py:518-526 | Distinct publisher names stay distinct among the rendered letters' keys. |
| Composer.ComposeAsDeclaredAlwaysFails | app/agents/composer.py:505-535 | With the schema as declared, every request with publishers and examples ends with every entry "error". The attribute error is the only message, whatever the model replies. |
| StrategistSchema.NewPublisherScore | app/schemas/strategist.py:30-40 | A score as the model returns it has no publisher name (`None`) and keeps its other fields. |
| Strategist.SparseQueryWords | app/agents/strategist.py:88 | The sparse query string is the keywords joined by single spaces: splitting it at spaces gives them back, and no keywords give "". |
| Strategist.ChooseSearch | app/agents/strategist.py:91-105 | The search is hybrid exactly when the sparse encoding exists and has at least one index; otherwise it is dense-only. |
| Strategist.RerankProjection | app/agents/strategist.py:111-122 | There is one prompt entry per match, in order, with the match's id and its four metadata fields. A match without metadata raises. |
| Strategist.CandidateNamesSpec | app/agents/strategist.py:166-168 | An id has a name entry exactly when some match carries it. The entry is the name of the last such match. |
| Strategist.Backfilled | app/agents/strategist.py:169-171 | Backfilling keeps the number of results. |
| Strategist.Backfill | app/agents/strategist.py:169-171 | The fill-in loop computes exactly the backfilled results. |
| Strategist.ExecuteStrategistPipeline | app/agents/strategist.py:154-173 | The method computes exactly the specified pipeline. |
| Strategist.PipelineRanking | app/agents/strategist.py:158-164 | No matches give [] before any reranking, and a match without metadata makes the projection raise. Otherwise there are `min(5, n)` results. Each is the i-th of the stably sorted reranking up to its name. Scores never increase, and nothing left out scores above a kept result. |
| Strategist.PipelineNames | app/agents/strategist.py:166-171 | A result keeps a name it already has. One with a falsy name takes the name of the last match carrying its id, and stays `None` when no match has that id. |
| StrategistAgent.DisplayNameSpec | Strategist/strategist_agent.py:176 | Without a match for the id, the display name is "Unknown Publisher". Otherwise it is read from the first match carrying the id, and later matches do not matter. |
| StrategistAgent.AgentPipelineSpec | Strategist/strategist_agent.py:162-179 | No matches give []. Otherwise the script returns the top five of the stable sort, unchanged by the name lookup and sorted, with nothing left out scoring above a kept result. |
| StrategistAgent.DisplayNamesFail | Strategist/strategist_agent.py:174-177 | With metadata on every match, the script fails exactly when the first match for some top result lacks a "publisher_name" key, and with that key error. |
| StrategistAgent.DisplayNameMetadata | Strategist/strategist_agent.py:176 | With metadata on every match, a failed lookup is the missing name key. |
| Confirm.ParseConfirmation | app/agents/confirm.py:15-42 | A blank message gives `None` before the key is looked at. Without a key, any other message raises. A failed request raises its own error. Otherwise a stripped, lower-cased "yes" gives `True` and "no" gives `False`. Everything else, including a missing decision, gives `None`. |
| Clarify.Hint | app/agents/clarify.py:36 | A field in the table gets its hint; any other field falls back to its own name. |
| Clarify.HintLines | app/agents/clarify.py:36-37 | There is one "- {hint}" line per field, in order. |
| Clarify.UserTextLines | app/agents/clarify.py:37 | The user text is "Missing information:" and then one hint line per field, in order, as long as no hint breaks a line. |
| Clarify.GenerateClarification | app/agents/clarify.py:23-46 | A missing key raises before any request. The call fails exactly when the key is missing or the request fails, and a failed request passes its error on. Otherwise the reply is stripped, and a missing reply becomes "". |
| QueryLetterGraph.Readiness | app/graphs/query_letter_graph.py:107-115 | Every missing setting is reported, in the order checked: the OpenAI key, the Pinecone key, then the BM25 weights with their path. Nothing is reported exactly when all three are there. |
| QueryLetterGraph.CreateServiceAgrees | app/agents/strategist.py:29-50 | The service constructor fails exactly when the readiness check reports something, and with the first message it reports. |
| QueryLetterGraph.Flag | app/graphs/query_letter_graph.py:62-73 | One check appends its field exactly when it fails. |
| QueryLetterGraph.MissingStrategistFields | app/graphs/query_letter_graph.py:43-74 | The validator's appending loop computes the specified missing list. |
| QueryLetterGraph.MissingComposerFields | app/graphs/query_letter_graph.py:77-104 | The same for the composer data. |
| QueryLetterGraph.StrategistMissingSpec | app/graphs/query_letter_graph.py:54-74 | A strategist field is listed exactly when it is blank after stripping, when the word count is absent or at most 0, or when the comparable titles are absent or empty. |
| QueryLetterGraph.StrategistMissingMembers | app/graphs/query_letter_graph.py:62-73 | Each check puts exactly its own field on the list. |
| QueryLetterGraph.ComposerMissingSpec | app/graphs/query_letter_graph.py:87-104 | A composer field is listed exactly when it is blank after stripping, or, for the word count, absent or at most 0. |
| QueryLetterGraph.MissingEmptyIff | app/graphs/query_letter_graph.py:43-104 | Nothing is missing exactly when every check passes. |
| QueryLetterGraph.EmptyStrategistShortcut | app/graphs/query_letter_graph.py:44-52 | The shortcut for empty data lists what the general checks list on it: all six fields, in order. |
| QueryLetterGraph.EmptyComposerShortcut | app/graphs/query_letter_graph.py:78-85 | The composer shortcut lists all five fields, as the checks do. |
| QueryLetterGraph.BlankTextIff | app/graphs/query_letter_graph.py:55 | `not (value or "").strip()` is the value, or "", being blank. |
| QueryLetterGraph.Keys | app/graphs/query_letter_graph.py:45-51 | The field names are the source's strings, in order. |
| QueryLetterGraph.ValidatorFieldsHaveHints | app/agents/clarify.py:8-20 | Every field a validator can report has its own entry in the hint table. So its hint is the table's, never the raw field name. |
| QueryLetterGraph.SupervisorPriority | app/graphs/query_letter_graph.py:118-151 | The supervisor decides in strict priority order: readiness errors end the run with the errors; a pending message goes to intake; missing strategist fields go to clarify; no publishers go to the strategist; missing composer fields go to clarify; no letters go to the composer; otherwise the run ends. It never touches the data, publishers or letters. |
| QueryLetterGraph.Route | app/graphs/query_letter_graph.py:227-228 | Routing reads `next_step`, defaulting to "end". |
| QueryLetterGraph.RoutesMapped | app/graphs/query_letter_graph.py:244-259 | Every supervisor decision is a mapped edge, never the supervisor itself. Intake, strategist and composer return to the supervisor; clarify ends. |
| QueryLetterGraph.MergeStrategistData | app/graphs/query_letter_graph.py:187-191 | The copy-and-update computes the overlay of the draft's non-`None` values on the old data. |
| QueryLetterGraph.MergeComposerData | app/graphs/query_letter_graph.py:188-193 | The same for the composer data. |
| QueryLetterGraph.OverlayKeeps | app/graphs/query_letter_graph.py:186-190 | For each of the six strategist keys: a value in the draft replaces the old one, and a key the draft leaves out keeps its value. So a merge never clears a key. Merging the same draft twice is merging it once, and an empty draft changes nothing. |
| QueryLetterGraph.OverlayComposerKeeps | app/graphs/query_letter_graph.py:187-192 | The same for each of the eight composer keys: replaced by a draft value, otherwise kept, never cleared. The merge is idempotent, and an empty draft changes nothing. |
| QueryLetterGraph.IntakeSpec | app/graphs/query_letter_graph.py:179-204 | A blank message only resets itself and routes to the supervisor. Otherwise the drafts are merged, the message is consumed and the missing fields are cleared. Either way the message is gone afterwards, so the next supervisor pass never routes to intake again. |
| QueryLetterGraph.ClarifySpec | app/graphs/query_letter_graph.py:207-224 | Clarify changes nothing but the assistant message. The message is "" when no field is missing. Otherwise the node fails exactly when the key is missing or the request fails; when it succeeds, the message is the stripped reply. |
| QueryLetterGraph.ValidatedBuilds | app/graphs/query_letter_graph.py:154-168 | Data the validators pass always builds the pydantic models, with their values. The word count is positive and the comparable titles are non-empty. |
| QueryLetterGraph.ToPublishers | app/graphs/query_letter_graph.py:159-162 | There is one publisher per strategist result. |
| QueryLetterGraph.ToPublishersSpec | app/graphs/query_letter_graph.py:159-162 | Publisher `i` is named `publisher_name or publisher_id` of result `i` and carries its comps, with nothing else set. |
| QueryLetterGraph.NotReadyEnds | app/graphs/query_letter_graph.py:119-121 | Without its settings the graph stops at once with the readiness errors. |
| QueryLetterGraph.WorkersSeeReadySettings | app/graphs/query_letter_graph.py:118-121 | The supervisor hands over only when every setting is there. So intake and clarify fail only when their model calls do, and the strategist fails only in the pipeline. |
| QueryLetterGraph.NoMatchesNeverEnds | app/graphs/query_letter_graph.py:139-140 | A strategist that finds no matches returns no publishers, and the supervisor sends it straight back. With no matches in every step, the transition relation never reaches an end, however many steps it is given. The real run therefore stops only at langgraph's recursion limit, with a recursion error, which is not modelled. |
| QueryLetterGraph.FiveStepsToLetters | app/graphs/query_letter_graph.py:244-259 | With its settings, complete data, matches with metadata, a non-empty reranking and the examples, a run without publishers or letters ends after five steps (supervisor, strategist, supervisor, composer, supervisor), with one letter per publisher and the data untouched. |
| Slushpilot.ToProfile | Supervisor.py:70 | `ManuscriptProfile(**manuscript)` succeeds exactly when all six keys are present, and keeps their values. |
| Slushpilot.RouteTable | Supervisor.py:100-108 | "Strategist" routes to the strategist and "PitchWriter" to the pitch writer. Anything else, "FINISH" and the empty initial value included, ends the run; the supervisor never routes to itself. |
| Slushpilot.PitchWriter | Supervisor.py:81-94 | The pitch writer sets `emails_drafted` and writes one "Drafted email for {publisher_id}" per publisher, in order. |
| Slushpilot.PitchWriterSpec | Supervisor.py:91-94 | The pitch writer leaves the manuscript, the publishers and the routing decision untouched. |
| Slushpilot.WorkersReturn | Supervisor.py:138-139 | After either worker, the next node is the supervisor. |
| Slushpilot.FollowingTheRules | Supervisor.py:114-142 | A run from a complete manuscript decides strategist, pitch writer, then finish. With matches and a non-empty result, it ends after five steps with one email per publisher found. |
| Slushpilot.DemoStrategistFails | Supervisor.py:152-164 | Routed to the strategist, the demo state as written stops with a validation error, whatever the search returns. |
| Slushpilot.DemoWithTitleRuns | Supervisor.py:152-164 | With a title, the demo manuscript builds its profile, and the strategist step returns to the supervisor with the pipeline's publishers. |
| Preprocess.FlattenSnoc | Strategist/preprocess_vectorize.py:64-73 | Writing one more batch appends its rows. |
| Preprocess.Ingest | Strategist/preprocess_vectorize.py:46-73 | Every accepted row is written once, in order. Every write is non-empty and at most 10000 rows, and every write but the last is exactly 10000 rows. The table is the insertion of all rows. The loop is shared with `process_openlibrary` (lines 79-112). |
| Preprocess.Buffer | Strategist/preprocess_vectorize.py:56-67 | An accepted row joins the pending batch. A full batch is written, so the pending batch stays below 10000 rows, every write holds exactly 10000, and no row is lost or reordered. |
| Preprocess.Flush | Strategist/preprocess_vectorize.py:65-67 | A written batch follows the earlier writes, and the table stays the INSERT OR IGNORE of everything written. |
| Preprocess.InsertOrIgnoreAppend | Strategist/preprocess_vectorize.py:65-72 | Inserting two batches one after the other is inserting their concatenation. |
| Preprocess.FirstWins | Strategist/preprocess_vectorize.py:65 | With `INSERT OR IGNORE`, a key is in the table when it was there or some row carries it. A key already there keeps its row, and a new key holds the first row carrying it. |
| Preprocess.AcceptGoodreads | Strategist/preprocess_vectorize.py:51-69 | A Goodreads line yields a row exactly when it decodes, its conversions succeed and its stripped isbn13 is non-empty. The row holds the stripped isbn13, the description and the ratings count. |
| Preprocess.AcceptOpenLibrary | Strategist/preprocess_vectorize.py:86-101 | An OpenLibrary line yields a row exactly when it has at least five tab-separated columns, the fifth decodes, and the isbn_13 and publishers lists are non-empty. The row holds the first isbn stripped, the first publisher, and the title or "Unknown". |
| Preprocess.AddOneSpec | Strategist/preprocess_vectorize.py:160 | Counting one more item raises its count by one, leaves every other count and keeps the keys distinct. |
| Preprocess.CounterUpdateSpec | Strategist/preprocess_vectorize.py:160-161 | `Counter.update(items)` raises each key's count by its number of occurrences among the items, and keeps the keys distinct. |
| Preprocess.KeysOf | Strategist/preprocess_vectorize.py:183 | A counter's keys are exactly those of its entries. |
| Preprocess.Aggregate | Strategist/preprocess_vectorize.py:146-167 | The grouping loop computes the specified grouping. |
| Preprocess.GroupKeys | Strategist/preprocess_vectorize.py:151-156 | There is one entry per publisher that is not ignored, in order of first appearance: the keys are distinct, they are the dictionary's, and none is blank or "unknown publisher". |
| Preprocess.GroupIsFold | Strategist/preprocess_vectorize.py:151-167 | A publisher that is not ignored has an entry exactly when some book names it. The entry is that publisher's books added up one after the other. |
| Preprocess.FoldSpec | Strategist/preprocess_vectorize.py:158-167 | An entry's `vol` counts the books and `total_ratings` sums their ratings counts. Its books are listed in order, and every genre and shelf is counted. |
| Preprocess.GroupSpec | Strategist/preprocess_vectorize.py:151-167 | For each publisher: whether it has an entry, and that the entry's volume, ratings total, book list and genre and shelf counts are its own books'. |
| Preprocess.PickedMembers | Strategist/preprocess_vectorize.py:179-180 | A value is in the filtered list exactly when it is non-empty and some book carries it. |
| Preprocess.PickedAppend | Strategist/preprocess_vectorize.py:179-180 | Filtering a concatenation filters each part in turn. So the filtered values keep the books' order. |
| Preprocess.PickedOne | Strategist/preprocess_vectorize.py:179-180 | A single book contributes its value exactly when the value is non-empty. |
| Preprocess.Titles | Strategist/preprocess_vectorize.py:179 | A comp title is in the list exactly when it is a non-empty title of one of the books. |
| Preprocess.Blurbs | Strategist/preprocess_vectorize.py:180 | A blurb is in the list exactly when it is a non-empty blurb of one of the books. |
| Preprocess.MostRated | Strategist/preprocess_vectorize.py:177 | The top books are a prefix of a permutation of the books, in non-increasing rating order. They number min(k, n), and no book left out has more ratings than one kept. |
| Preprocess.MakeProfileSpec | Strategist/preprocess_vectorize.py:177-199 | There are at most five comp titles, in rating order. A title is among them exactly when it is the non-empty title of one of the five most-rated books. The dense text is "Publisher: {name}\n\nTop Books:\n" followed by the non-empty blurbs of the fifteen most-rated books, joined by "\n---\n". The active genres are at most ten, the most common first, with none counted less than one left out. The keywords are exactly the top genres and the top shelves. |
| Preprocess.BuildProfiles | Strategist/preprocess_vectorize.py:173-200 | The profile loop computes the profiles of the grouping, in its order. |
| Preprocess.ProfilesSpec | Strategist/preprocess_vectorize.py:174 | A publisher has a profile exactly when its volume is at least two; no profile has a smaller one. |
| Preprocess.Truncate | Strategist/preprocess_vectorize.py:244 | `s[:8000]` is a prefix of at most 8000 characters, all of `s` when it is shorter. |
| Preprocess.RecordSpec | Strategist/preprocess_vectorize.py:253-272 | A record carries the profile's id and metadata and the embedding of its truncated dense text. Sparse values are attached exactly when the encoding has indices. |
| Preprocess.Records | Strategist/preprocess_vectorize.py:252-274 | There is one record per profile, in order. |
| Preprocess.AssemblePayload | Strategist/preprocess_vectorize.py:252-274 | The payload loop computes the records of its chunk. |
| Preprocess.EmbedAndUpsert | Strategist/preprocess_vectorize.py:238-277 | The upserts, one after the other, are the records of all profiles in order. There are `ceil(n / 100)` of them, none empty, and every one but the last holds exactly 100. |

## Left out

- Language-model, embedding, Pinecone and BM25 calls: their results are inputs. This covers `formulate_queries`, `rerank_publishers`' request, `parse_intake`, `supervisor_agent`, `hybrid_convex_scale`, `encode_queries`/`encode_documents` and the BM25 fit and dump. Their libraries are foreign code.
- JSON decoding and pydantic validation of model replies: the intake, clarify, confirm and composer requests are each an input that is either the validated reply or the error the request raised.
- Failures of the strategist's own requests (`formulate_queries`, the index query and `rerank_publishers`): the retrieved matches and the reranked list are plain inputs. So the model does not capture a strategist node that raises because one of those calls fails.
- `generate_query_letter` and `build_composer_prompt`, the single-letter path: nothing in the graph calls them. Their rendering is the same `render_query_letter`.
- The prose of the system prompts and the format guidance: only the parts of the batched prompt that depend on the inputs are modelled.
- Floating point: the average ratings, `rating_sum`, the rounded `avg_goodreads_rating` and the hybrid alpha 0.5.
- `hash(pub_name)`, which is randomised per process: the publisher id is an input function.
- The order of `list(set(...))` for the sparse keywords, which is unspecified: the keywords are a set, and the sparse encoding is a function of that set.
- File, SQLite and progress-bar I/O: the table schema, `export_joined_data`'s SQL join, the JSONL files, the index deletion and creation, and the directory walk of `load_fewshot_examples`. The walk's result is an input.
- `Preprocess.EmbedAndUpsert`: assumes the batched embedding returns one vector per input text, in order. Each record's vector is the embedding of its own text.
- A JSON `null` title or blurb in the merged file is read as "", which the profile filters treat alike.
- A JSON `null` OpenLibrary title is treated as an absent one.
- `Preprocess.AcceptGoodreads`: `popular_shelves` is kept as its JSON text, and the average rating only as whether it converts.
- Environment variables and `config.py`: the settings the readiness check reads are an `Env` value. The `DEBUG_INTAKE` prints are left out.
- `config.STRATEGIST_BM25_PATH` and `config.PINECONE_INDEX`: config.py does not define them. So `_strategist_ready` (app/graphs/query_letter_graph.py:113) and `create_strategist_service` (app/agents/strategist.py:37-39), as shipped, raise `AttributeError`. The model reads both as `Env` settings. So `QueryLetterGraph.NotReadyEnds`, `QueryLetterGraph.WorkersSeeReadySettings` and `QueryLetterGraph.FiveStepsToLetters` describe a program whose configuration defines them.
- langgraph itself: the edge tables are the transition function `Step`, and a run is `Run` over one input per step. langgraph's recursion limit is not modelled, so a run of any length is allowed.
- `QueryLetterGraph.State.nextStep`: takes only the values the nodes write ("intake", "clarify", "strategist", "composer", "end" and intake's "supervisor"), not an arbitrary string.
- Keys of the state dictionaries that the nodes never read or write: they are not modelled. The manuscript dictionaries are records of optional fields.
- The HTTP routers, `server.py`, `app/main.py`, `app/services/composer.py`, the scripts and the web front end: they are wiring, stubs or interactive drivers.

## Findings

| source | as written | input that shows it | evidently intended | confidence | as-written member | corrected member |
|---|---|---|---|---|---|---|
| app/agents/composer.py:272-274 | The batched prompt reads `manuscript.detail_summary` and `options.infer_detail_summary`, which app/schemas/composer.py:6-25 does not declare. The `except` at lines 532-535 catches the resulting error and marks every letter "error". | Any request with at least one publisher and readable examples | Both are optional inputs: the detail summary defaults to "None provided" in the prompt and the flag to `None`. The model adds them as optional fields, and the graph uses that version. | not executed; pydantic raises on undeclared attributes | Composer.ComposeAsDeclaredAlwaysFails | Composer.ComposeSuccess |
| Supervisor.py:152-164 | The demo's initial manuscript has no "title", while `ManuscriptProfile` requires one (Strategist/strategist_agent.py:25-31). So the strategist worker raises as soon as it is reached. | The demo state with the decision "Strategist" | The demo manuscript has a title, and the strategist runs the pipeline | not executed | Slushpilot.DemoStrategistFails | Slushpilot.DemoWithTitleRuns |
