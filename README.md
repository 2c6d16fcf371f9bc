# Discovery expand stage — a Dafny model

This project models the "expand" stage of the plotseo keyword-discovery
pipeline, together with the request that creates a discovery report and the
utilities both of them use:

- `apiCreateDiscovery` validates a request, stores a `queued` report and
  sends the message that starts the report's first expand run
  (`create.dfy`).
- `serviceDiscoveryExpand` handles that message (`expand.dfy`). It validates
  the message and marks a first run `processing`. It then gathers
  suggestions: from the questions or wildcard strategy for a seed, from the
  keywords a URL ranks for, or from the custom keyword list. It updates stale
  years, cleans and dedupes the suggestions, and computes n-grams over all of
  the report's keywords. It writes one keyword item per suggestion and
  stores the terms. Finally it marks the run `completed`, and registers and
  sends the keyword-data stage, the verb stage (English only) and the SERP
  similarity stage.
- The strategies: `generateSuggestions` (`generate.dfy`),
  `getSuggestionsForQuestions` with its pooled fan-out (`questions.dfy`,
  `pool.dfy`), and `getSuggestionsForWildcard` (`wildcard.dfy`).
  `getKeywordsForUrl` is in `url.dfy`.
- Shared code: `cleanKeyword` and `updateKeywordYear` (`keyword.dfy`), the
  `ALPHABET` and `QUESTIONS` constants and `getPartsAndWords` (`text.dfy`),
  and the date formatting of `ymd.ts` (`ymd.dfy`).
- The two collections: discovery reports (`discovery_store.dfy`, a class
  over a map from id to report) and discovery items (`item_store.dfy`, a
  class over a sequence of items). The queue and the uuid generator are in
  `queue.dfy`.

The handler is modelled twice.

- `Expand.ExpandRun` is a function. It gives the reply of a run and its
  ordered log of effects: every store write, strategy trace, URL lookup,
  item write and message sent.
- `Expand.Expand` is a method. It performs the run on the report store, the
  queue and the uuid supplier. It is proved to return exactly what
  `ExpandRun` says, to leave the store equal to the log replayed on the old
  store, and to leave the queue equal to the old queue followed by the
  messages in the log.
- The lemmas in `expand_props.dfy` state what a run promises. On success,
  the items written are exactly the cleaned, deduped suggestions, and the
  messages are exactly the follow-up stages. A failed run sends nothing.
  Each failure path ends in the way the handler codes it.

The suggestion source is a function from probes to suggestion lists. The
strategies return the list of events they would cause: queries, pauses and
joined waves. Pacing and batching are therefore stated as properties of that
trace. One example is the first question round over the 16 question words,
which runs in waves of 3, 3, 3, 3, 3 and 1 with five pauses.

Some behaviours of the code are easy to misread; the model follows the code:

- The fan-out pool flushes when more than `POOL_SIZE = 2` tasks are pending,
  so waves hold 3 tasks. The pause follows each full wave only, not the
  final partial one.
- A question or wildcard search without a seed, or a URL search without a
  URL or without keywords, replies `{ success: false }`. It writes no
  `error` status, so a first run leaves its report `processing`.
- The wildcard strategy ends with `uniqBy(filtered, 'suggestion')` over
  strings. Every key is `undefined`, so at most one suggestion survives.
- The year is updated before the keyword is cleaned.
- An item is written for every cleaned suggestion, not only for keywords the
  report did not have yet. The keyword-data message carries all cleaned
  suggestions.

## Model

| member | source | states |
|---|---|---|
| Keyword.RemovePossessives | app/src/shared/keyword.ts:19 | deleting every `'s ` never lengthens the text and introduces no character |
| Keyword.RemovePossessivesDeletesMarker | app/src/shared/keyword.ts:19 | an `'s ` after a stretch without one is deleted, trailing space included, and everything else is kept |
| Keyword.RemovePossessivesNone | app/src/shared/keyword.ts:19 | a text without `'s ` is left unchanged |
| Keyword.KeepKeywordClass | app/src/shared/keyword.ts:20 | every character kept is from the input and in the keyword class: letters, digits, `-`, `'`, white space, `\`, and `*` only when allowed |
| Keyword.CollapseSpaces | app/src/shared/keyword.ts:21 | collapsing white space gives the empty text exactly for the empty text |
| Keyword.CollapseSpacesChars | app/src/shared/keyword.ts:21 | after collapsing, every character is a single space or a non-space character of the input |
| Keyword.CollapseSpacesNoDouble | app/src/shared/keyword.ts:21 | after collapsing, no two white-space characters are adjacent |
| Keyword.RemoveBackslashes | app/src/shared/keyword.ts:24-26 | removing escape characters leaves no `\` and introduces no character |
| Keyword.CleanKeyword | app/src/shared/keyword.ts:2-4 | a keyword that is blank after trimming cleans to the empty text |
| Keyword.CleanKeywordCharacters | app/src/shared/keyword.ts:1-29 | every character of a cleaned keyword is a lower-case letter, digit, `-`, `'`, space or `\` (or `*` when allowed), and no `\` remains when escapes are removed |
| Keyword.CleanKeywordSingleSpaces | app/src/shared/keyword.ts:8-22 | when escapes are kept, a cleaned keyword never has two white-space characters in a row |
| Keyword.CleanKeywordKeepsBackslashes | app/src/shared/keyword.ts:16-21 | when escapes are kept, cleaning a non-blank keyword keeps every `\` |
| KeywordExample.CleanKeywordEscapeLeavesDoubleSpace | app/src/shared/keyword.ts:24-26 | with escape removal, `a \ b` cleans to `a  b`, so the single-space property holds only when escapes are kept |
| Keyword.UpdateKeywordYearSpec | app/src/shared/keyword.ts:31-38 | the length is kept; a whole-word `2021` wins over `2020`; the first occurrence of the chosen year becomes `2022`; with neither year as a whole word the text is unchanged; at most one character changes |
| Keyword.UpdateKeywordYearKeeps2020 | app/src/shared/keyword.ts:32-33 | when `2021` is a whole word, every `2020` is left as it was |
| Keyword.UpdateKeywordYearFirstSubstring | app/src/shared/keyword.ts:32-33 | `x2021 2021` becomes `x2022 2021`: the whole-word test and the replacement look at different occurrences |
| Text.AlphabetLetters | app/src/shared/text.ts:16-43 | `ALPHABET` is the 26 letters `a` to `z`, in order |
| Text.QuestionsValue | app/src/shared/text.ts:45-63 | `QUESTIONS` is the 17-word list with the second `can` removed: 16 distinct words in first-occurrence order |
| Text.TagShape | app/src/shared/text.ts:9 | a stored n-gram tag has no space and no upper-case letter |
| Text.GetPartsAndWords | app/src/shared/text.ts:4-14 | the loop over the n-grams returns `PartsAndWords` of the sentence |
| Text.PartsAndWordsSpec | app/src/shared/text.ts:4-14 | the parts are the tags of exactly the n-grams whose spaced form matches the sentence, in n-gram order, none longer than the n-gram list |
| Ymd.PadSpec | app/src/shared/ymd.ts:5-9 | a padded number below 100 has two characters, all digits, and parses back to the number |
| Ymd.DatetimeIsDateSpaceTime | app/src/shared/ymd.ts:43-52 | the date-time text is the date text, a space, then the time text |
| Ymd.GetDatePieces | app/src/shared/ymd.ts:54-60 | splitting the date at `-` gives the year (with an empty piece first for a negative year), then the padded month and day |
| Ymd.GetDateRoundTrip | app/src/shared/ymd.ts:54-60 | for a non-negative year the date has three parts that parse back to the year, the 1-based month and the day |
| Ymd.GetTimeRoundTrip | app/src/shared/ymd.ts:68-74 | the time has three parts that parse back to the hours, minutes and seconds |
| Ymd.GetTimeLength | app/src/shared/ymd.ts:68-74 | an in-range time of day is eight characters long |
| Seqs.Uniq | app/src/services/utils/generateSuggestions.ts:36 | `uniq` keeps exactly the elements of its input, without duplicates and never longer |
| Seqs.UniqOrder | app/src/services/utils/generateSuggestions.ts:36 | `uniq` keeps elements in the order of their first occurrence |
| Seqs.UniqByConstantKey | app/src/services/utils/getSuggestionsForWildcard.ts:60 | `uniqBy` with a key that is the same for every element keeps only the first element |
| Pool.ExpectedWavesShape | app/src/services/utils/getSuggestionsForQuestions.ts:66-89 | n tasks form ceil(n/3) waves, all of 3 but the last, which holds the remainder, and the sizes add up to n |
| Pool.PoolTraceCounts | app/src/services/utils/getSuggestionsForQuestions.ts:62-89 | pooling query-only tasks gives exactly those waves, one 500 ms pause per full wave, and every task's queries |
| Pool.PooledEnd | app/src/services/utils/getSuggestionsForQuestions.ts:81-89 | the final partial wave completes the trace and the joined results |
| Questions.QuestionProbes | app/src/services/utils/getSuggestionsForQuestions.ts:24-29 | each question gives three probes, each with its caret one before the end of its text |
| Questions.GetSuggestionsForQuestion | app/src/services/utils/getSuggestionsForQuestions.ts:16-56 | the method returns `QuestionResponse` and queries the three probes in order |
| Questions.QuestionResponseSpec | app/src/services/utils/getSuggestionsForQuestions.ts:31-50 | the suggestions are the distinct answers other than `question seed`, in first-answer order; the extra modifiers are distinct and multi-word |
| Questions.JoinResponses | app/src/services/utils/getSuggestionsForQuestions.ts:68-73 | joining a wave appends every response's suggestions and modifiers in task order |
| Questions.PoolQuestions | app/src/services/utils/getSuggestionsForQuestions.ts:62-89 | the pooled loop returns the concatenated suggestions and deduped modifiers of the questions, and the pooled trace |
| Questions.GetFirstSuggestions | app/src/services/utils/getSuggestionsForQuestions.ts:58-97 | the first round over `QUESTIONS` returns `FirstRound` and its trace |
| Questions.FirstRoundCounts | app/src/services/utils/getSuggestionsForQuestions.ts:62-89 | the first round runs waves of 3, 3, 3, 3, 3 and 1, pauses five times and sends 48 queries |
| Questions.FirstRoundModifiers | app/src/services/utils/getSuggestionsForQuestions.ts:95 | the first round's modifiers are distinct and each has more than one word |
| Questions.ExtraProbes | app/src/services/utils/getSuggestionsForQuestions.ts:106-109 | a modifier gives two probes of `mod * seed`, with carets after `mod *` and at the end |
| Questions.GetExtraSuggestions | app/src/services/utils/getSuggestionsForQuestions.ts:99-117 | the method returns `ExtraResult` and queries both probes |
| Questions.ExtraResultSpec | app/src/services/utils/getSuggestionsForQuestions.ts:110-114 | a modifier's suggestions are the distinct answers of either probe other than `mod seed` |
| Questions.JoinResults | app/src/services/utils/getSuggestionsForQuestions.ts:132-136 | joining a wave appends every result in task order |
| Questions.GetSecondSuggestions | app/src/services/utils/getSuggestionsForQuestions.ts:119-154 | the second round returns the concatenated results over the modifiers and the pooled trace |
| Questions.SecondRoundCounts | app/src/services/utils/getSuggestionsForQuestions.ts:126-151 | the second round runs the expected waves, one pause per full wave, and two queries per modifier |
| Questions.GetSuggestionsForQuestions | app/src/services/utils/getSuggestionsForQuestions.ts:156-181 | the strategy returns `QuestionsSuggestions` and the trace of both rounds |
| Questions.QuestionsSuggestionsSpec | app/src/services/utils/getSuggestionsForQuestions.ts:165-175 | the result is duplicate-free, in first-occurrence order, and holds exactly the merged suggestions that pass the keep filter |
| Questions.KeptSuggestionShape | app/src/services/utils/getSuggestionsForQuestions.ts:167-175 | a kept suggestion starts with a question word, is not the seed, and keeps more than one token once the seed is removed |
| Wildcard.HasStarIff | app/src/services/utils/getSuggestionsForWildcard.ts:13-17 | the seed contains `*` exactly when its star count is positive |
| Wildcard.SecondStar | app/src/services/utils/getSuggestionsForWildcard.ts:45-46 | for two stars, the index is that of the second `*` |
| Wildcard.OneStarLetters | app/src/services/utils/getSuggestionsForWildcard.ts:32-43 | the letter loop for one star returns `OneStarResults` and `OneStarTrace` |
| Wildcard.TwoStarLetters | app/src/services/utils/getSuggestionsForWildcard.ts:44-56 | the letter loop for two stars returns `TwoStarResults` and `TwoStarTrace` |
| Wildcard.GetSuggestionsForWildcard | app/src/services/utils/getSuggestionsForWildcard.ts:7-61 | the strategy returns `WildcardSuggestions` and `WildcardTrace` |
| Wildcard.OneStarTraceShape | app/src/services/utils/getSuggestionsForWildcard.ts:34-39 | each letter gives a 400 ms pause and then one query at caret `mod.length` |
| Wildcard.OneStarTraceCounts | app/src/services/utils/getSuggestionsForWildcard.ts:34-43 | the one-star loop sends one query and one pause per letter and no waves |
| Wildcard.TwoStarTraceShape | app/src/services/utils/getSuggestionsForWildcard.ts:47-49 | the two-star loop sends exactly one query per letter, with no pause |
| Wildcard.TwoStarResultsNoStar | app/src/services/utils/getSuggestionsForWildcard.ts:50-54 | no two-star letter result contains `*` |
| Wildcard.WildcardTraceSpec | app/src/services/utils/getSuggestionsForWildcard.ts:13-19 | without a star nothing is queried; otherwise the seed is queried first, and with three or more stars only the seed is queried |
| Wildcard.WildcardTraceOneStar | app/src/services/utils/getSuggestionsForWildcard.ts:19-43 | one star gives 27 queries (28 unless the seed ends in `*`) and 26 pauses |
| Wildcard.WildcardTraceTwoStars | app/src/services/utils/getSuggestionsForWildcard.ts:19-56 | two stars give 27 queries and no pause |
| Wildcard.WildcardSuggestionsSpec | app/src/services/utils/getSuggestionsForWildcard.ts:59-60 | with a `*` in the seed, the result is the first of the collected suggestions (whichever query returned it) that is not the seed, or nothing when every collected suggestion is the seed; it has at most one element |
| Wildcard.VariantAddsOnlyNew | app/src/services/utils/getSuggestionsForWildcard.ts:24-30 | the variant query adds no suggestion the main query already gave: a repeat after the main results comes from the letter queries |
| Generate.RunStrategy | app/src/services/utils/generateSuggestions.ts:14-18 | the dispatch calls the questions or wildcard strategy for their search types and nothing otherwise |
| Generate.FilterSuggestions | app/src/services/utils/generateSuggestions.ts:20-36 | the post-filter returns the deduped candidates and asks for extras exactly for a non-empty questions result |
| Generate.GenerateSuggestions | app/src/services/utils/generateSuggestions.ts:9-37 | the method returns `Generated`, the strategy's trace, and whether extras were asked for |
| Generate.CandidatesSpec | app/src/services/utils/generateSuggestions.ts:20-36 | the result is duplicate-free and in order. Questions keep strategy suggestions, and extras for a non-empty result, of at most 10 words that contain the seed. Wildcard keeps suggestions of at most 10 words. No suggestions give none |
| Generate.OtherTypesGenerateNothing | app/src/services/utils/generateSuggestions.ts:14-18 | custom and URL searches generate nothing and ask for no extras |
| Generate.ExtrasAfterStrategy | app/src/services/utils/generateSuggestions.ts:20-29 | the kept strategy suggestions come first, before any extra suggestion |
| Generate.WildcardGeneratesAtMostOne | app/src/services/utils/generateSuggestions.ts:16-17 | a wildcard search generates at most one suggestion |
| Url.SelectPathname | app/src/services/utils/getKeywordsForUrl.ts:8-14 | the path is absent exactly when it is `/` and the text does not end in `/`, and is the parsed path otherwise |
| Url.GetKeywordsForUrl | app/src/services/utils/getKeywordsForUrl.ts:4-36 | without both credentials nothing is found and nothing is called. Otherwise one call is made with host and selected path, and its answer is returned exactly when it is non-empty |
| DiscoveryStore.ApplyPatch | app/src/db/discovery.ts:54-62 | an update sets the status and the terms it carries (keeping those it does not), stamps the update time, and changes no other field |
| DiscoveryStore.ApplyPatchIdempotent | app/src/db/discovery.ts:54-62 | applying the same update twice at the same time is applying it once |
| DiscoveryStore.UpsertExisting | app/src/db/discovery.ts:98-101 | a task with the uuid gets the new status at its first match, and nothing else changes |
| DiscoveryStore.UpsertAbsent | app/src/db/discovery.ts:102-110 | without a task of that uuid, a new task is appended with the status, stage and start date |
| DiscoveryStore.UpsertKeepsUnique | app/src/db/discovery.ts:98-110 | task uuids stay unique, and a task with the uuid and the status is present afterwards |
| DiscoveryStore.UpsertIdempotent | app/src/db/discovery.ts:98-110 | a repeated task write with the same uuid and status changes nothing |
| DiscoveryStore.ReportStore.Create | app/src/db/discovery.ts:11-19 | the report is stored under a fresh id and nothing else changes |
| DiscoveryStore.ReportStore.Get | app/src/db/discovery.ts:30-46 | an unknown id gives nothing; a known one gives the stored report with the id asked for |
| DiscoveryStore.ReportStore.Update | app/src/db/discovery.ts:48-64 | the report is patched when it exists and the result says whether it did |
| DiscoveryStore.ReportStore.Delete | app/src/db/discovery.ts:66-74 | the report is removed and the result says whether it existed |
| DiscoveryStore.ReportStore.AddOrUpdateTask | app/src/db/discovery.ts:76-113 | a missing uuid and an unknown report are errors with nothing written; otherwise the tasks are upserted and the result says whether they changed |
| ItemStore.SelectItemsSpec | app/src/db/discovery-item.ts:25-48 | only the report's items are found: all of them without a keyword list, and exactly the listed keywords with a non-empty list |
| ItemStore.UpdateFirstSpec | app/src/db/discovery-item.ts:60-72 | only the first item of that report and keyword gets the patch merged into its fields; with no match nothing changes |
| ItemStore.WithoutReportSpec | app/src/db/discovery-item.ts:74-82 | every item of the report goes, every other stays, and the list shrinks exactly when the report had one |
| ItemStore.WithoutKeywordsSpec | app/src/db/discovery-item.ts:84-92 | only the report's items with a listed keyword go, and the list shrinks exactly when there was one |
| ItemStore.ItemStore.GetItem | app/src/db/discovery-item.ts:7-23 | an empty keyword finds nothing; otherwise the result is an item of that report and keyword, and nothing is found only when there is none |
| ItemStore.ItemStore.Create | app/src/db/discovery-item.ts:50-58 | the item is appended, with no check for duplicates |
| ItemStore.ItemStore.Update | app/src/db/discovery-item.ts:60-72 | the first match is patched and the result says whether anything changed |
| ItemStore.ItemStore.DeleteAllForReport | app/src/db/discovery-item.ts:74-82 | all of the report's items are removed and the result says whether any were |
| ItemStore.ItemStore.DeleteForReport | app/src/db/discovery-item.ts:84-92 | the report's listed keywords are removed and the result says whether any were |
| Queues.Queue.Send | app/src/services/serviceDiscoveryExpand.ts:154-164 | a message is appended to the messages sent |
| Queues.UuidSupplier.Fresh | app/src/services/serviceDiscoveryExpand.ts:152 | each call hands out the next id and counts it |
| Queues.UuidTextInjective | app/src/services/serviceDiscoveryExpand.ts:152 | two ids are equal exactly when their counters are, so every id handed out is new |
| Expand.Mark | app/src/services/serviceDiscoveryExpand.ts:61-65 | a first run writes the status on the report; a later run writes it on its `discovery-expand` task, which throws for an unknown report |
| Expand.Fail | app/src/services/serviceDiscoveryExpand.ts:59-67 | recording `error` appends the status write and replies with the failure code, unless the write throws |
| Expand.GatherStrategy | app/src/services/serviceDiscoveryExpand.ts:73-91 | without a seed the run ends with failure and no write; a throwing strategy records `error`; otherwise the strategy's suggestions and trace |
| Expand.GatherUrl | app/src/services/serviceDiscoveryExpand.ts:93-106 | without a URL, or without keywords for it, the run ends with failure and no status write; otherwise the run goes on with the ranked keywords |
| Expand.Gather | app/src/services/serviceDiscoveryExpand.ts:69-106 | gathering by search type matches `GatherStep` and leaves the store as the log says |
| Expand.WriteItems | app/src/services/serviceDiscoveryExpand.ts:132-134 | one item write per keyword in order, stopping after the first that throws, and a report of whether one threw |
| Expand.Register | app/src/services/serviceDiscoveryExpand.ts:152-164 | a follow-up stage registers its task as `queued`, then sends its message |
| Expand.Dispatch | app/src/services/serviceDiscoveryExpand.ts:150-181 | dispatch matches `DispatchRun`: it throws at the first task write on an unknown report, and otherwise registers and sends every stage; the uuid supplier advances by exactly the ids the log draws, and no report id is used up |
| Expand.WrapUp | app/src/services/serviceDiscoveryExpand.ts:136-181 | the terms (when computed), the `completed` mark and the dispatch match `WrapUpRun` |
| Expand.Finish | app/src/services/serviceDiscoveryExpand.ts:132-148 | the item writes and then the wrap-up match `FinishRun` |
| Expand.Complete | app/src/services/serviceDiscoveryExpand.ts:108-130 | cleaning, the n-grams of all the report's keywords (recording `error` when they fail) and the rest match `CompleteRun` |
| Expand.Proceed | app/src/services/serviceDiscoveryExpand.ts:59-106 | validation, gathering and the rest of the run match `ProceedRun`, and the store and queue stay in step with its log |
| Expand.Expand | app/src/services/serviceDiscoveryExpand.ts:25-188 | the handler's reply and log are `ExpandRun`'s; the store is the log replayed on the old store, and the queue gained exactly the log's messages; the uuid supplier advances by exactly one id per registered follow-up task; the set of reports and the next report id stay the same, so a valid store stays valid |
| Expand.Done | app/src/services/serviceDiscoveryExpand.ts:136-148 | the terms (when computed) and the `completed` mark are written as `DoneEffects` says, throwing exactly when the mark's task write meets an unknown report; no uuid and no report id is used |
| ExpandProperties.ReplayReport | app/src/db/discovery.ts:54-62 | the run's writes keep the report and change only its status, terms, update time and tasks; without report writes the first three stay, and without a terms write the terms stay |
| ExpandProperties.DispatchLog | app/src/services/serviceDiscoveryExpand.ts:150-181 | the follow-up log is keyword data, verbs only for `en`, then SERP similarity, each registered `queued` right before it is sent under ids handed out in that order |
| ExpandProperties.DispatchRegisters | app/src/services/serviceDiscoveryExpand.ts:152-181 | the dispatch writes only `queued` registrations and messages, and every message directly follows the registration of its own task for its own queue |
| ExpandProperties.DispatchMessages | app/src/services/serviceDiscoveryExpand.ts:152-181 | the messages go to keyword data, verbs (English only) and SERP similarity, all for the report. Keyword data goes first with the run's keywords, seed, location, language and search engine. Task ids are pairwise distinct and none was handed out before the run |
| ExpandProperties.DispatchIds | app/src/services/serviceDiscoveryExpand.ts:152-181 | the `i`th follow-up message carries the `i`th uuid handed out during the dispatch |
| ExpandProperties.DispatchDrawn | app/src/services/serviceDiscoveryExpand.ts:152-181 | the dispatch draws exactly one uuid per message it sends |
| ExpandProperties.GatherSpec | app/src/services/serviceDiscoveryExpand.ts:69-106 | gathering extends the log with quiet effects only (or the `error` mark when it fails), never replies success, and goes on with `Suggestions` |
| ExpandProperties.GatherGoesQuietly | app/src/services/serviceDiscoveryExpand.ts:69-106 | gathering from the start of a run goes on with `Suggestions`, keeps the start, and adds no status, task, item or message |
| ExpandProperties.SuccessLog | app/src/services/serviceDiscoveryExpand.ts:108-181 | a successful run's log is gathering, the item writes, the terms, `completed`, and the dispatch |
| ExpandProperties.ExpandSucceeds | app/src/services/serviceDiscoveryExpand.ts:108-187 | on success the report exists and any custom search had keywords; the items written are exactly the cleaned, deduped suggestions, in order; the messages are exactly the dispatch over those keywords; `completed` is recorded and `error` never |
| ExpandProperties.ExpandFailsWithoutSending | app/src/services/serviceDiscoveryExpand.ts:31-130 | a run that does not reply success sends no message |
| ExpandProperties.ExpandStopsQuietly | app/src/services/serviceDiscoveryExpand.ts:73-105 | a missing seed, a missing URL or a URL without keywords replies `{ success: false }` with no status write beyond `processing`, and no task, item or message |
| ExpandProperties.ExpandRecordsError | app/src/services/serviceDiscoveryExpand.ts:59-90 | a custom search without keywords, or a throwing strategy, ends the log with the `error` mark and replies 404 or 200 respectively (or throws on an unknown report's task), sending nothing |
| ExpandProperties.ExpandRecordsNgramsError | app/src/services/serviceDiscoveryExpand.ts:118-130 | when the n-grams of the report's keywords fail, the log is gathering followed by the `error` mark, the reply is 200 with `{ success: false }` (or the mark throws on an unknown report's task), and no item is written and no message sent |
| ExpandProperties.TermsFailureStillCompletes | app/src/services/serviceDiscoveryExpand.ts:136-142 | a failure to compute the terms does not change how the run ends: the reply is the one it would have had with the terms |
| ExpandProperties.ExpandDrawsOnePerMessage | app/src/services/serviceDiscoveryExpand.ts:152-181 | a successful run draws exactly one uuid per message it sends, and its `i`th message carries the `i`th uuid handed out in the run |
| ExpandProperties.ExpandCompletesReport | app/src/services/serviceDiscoveryExpand.ts:136-148 | after a successful first run the report is `completed` and updated at the run's time; it carries the computed terms, or keeps the old ones when none were computed, and is otherwise the same report |
| ExpandProperties.KeywordsOfSpec | app/src/services/serviceDiscoveryExpand.ts:108 | the run's keywords are distinct and are exactly the cleaned forms of the suggestions (year updated, then cleaned) |
| ExpandProperties.KeywordsAreClean | app/src/services/serviceDiscoveryExpand.ts:108 | each keyword of a run uses only keyword characters and never has two white-space characters in a row |
| CreateDiscovery.Created | app/src/api/discovery/apiCreateDiscovery.ts:54-87 | success holds exactly when the keywords are valid and the insert succeeds; exactly then is a report stored and the start message sent, and the reply carries the new id |
| CreateDiscovery.Create | app/src/api/discovery/apiCreateDiscovery.ts:14-88 | the handler replies as `Created` says for a fresh id, stores exactly that report and sends exactly those messages |
| CreateDiscovery.NewReportDateConsistent | app/src/api/discovery/apiCreateDiscovery.ts:46-49 | when the clock readings fall on one calendar day, the stored date is the stored year, month and day joined by `-` |
| CreateDiscovery.CreatedReportMatchesMessage | app/src/api/discovery/apiCreateDiscovery.ts:67-81 | a created report is `queued` with no tasks and no terms, and its start message is a first run for that id carrying the report's seed, search type, language, location and engine |
| CreateDiscovery.CreatedMessagePassesValidation | app/src/api/discovery/apiCreateDiscovery.ts:56-59 | the message a successful create sends passes the expand stage's keyword check, never gets its 404 reply, and a custom search goes on with the request's keywords |
| CreateDiscovery.CompleteNeverNotFound | app/src/services/serviceDiscoveryExpand.ts:108-187 | once suggestions are gathered, no path replies 404 |

## Left out

- The suggestion source (`getGoogleSuggest`), the modifier extractor, the extra-suggestion source and the URL parser are given as functions. So are the ranked-keywords service, `getNgrams`, `calculateTerms` and `createOrUpdateDiscoveryItem`, which appear as parameters or outcomes. `getExtraSuggestions`, `getNgramsAndSimilar`, `calculateTerms`, `createOrUpdateDiscoveryItem`, `d4s` and `suggest` are not part of this model.
- A failing call to one of these collaborators is a flag. `strategyThrows` stands for a rejected `generateSuggestions`, with no partial trace recorded. The others are `ngrams` returning `None`, `itemWriteFails`, and `terms` being `None`.
- `sleep`, the clock and `uuid()` are not modelled as such. Pauses are trace events, the time is a parameter, and uuids come from a counter (`uuid-0`, `uuid-1`, …) whose freshness is proved; a run draws one uuid per message it sends.
- `Promise.all` concurrency is left out. Each wave is modelled as its tasks run in order, and a rejected task is not modelled. Console logging and the elapsed-minutes message are left out.
- Each `new Date()` read is modelled as its own clock reading. The four date fields of a created report come from four readings, and the model relates them only when they fall on one day.
- Mongo's `ObjectId` is a natural number, and `id.toString()` is that number. The store hands out the next unused number, and insertion ids of keyword items are not returned.
- The optional request and message fields `serpLocation`, `easyWinsDefaults`, `easyWinsPatterns` and `competitorPatterns` are left out, and so is `reportType`. The core copies them and never reads them.
- `dbListDiscovery` is not part of this model, because the expand stage does not use it.
- `dbDeleteDiscoveryItemsForReport` with an absent keyword list (`$in: undefined`) is modelled as an empty list.
- The database-not-connected error is not modelled.
- DiscoveryStore.ReportStore.Update: Mongo's `modifiedCount` is modelled as "the report exists". The update always stamps a new `updatedAt`, so a same-value write cannot be told apart in the model.
- DiscoveryStore.ReportStore.AddOrUpdateTask: returns whether the task list changed. Mongo's `$addToSet` of an equal task is not distinguished.
- Expand.Expand: the task status of a later run is written by uuid on the report the message names. If a uuid of another stage happened to collide, that task would be updated instead. The model shares this behaviour with the source and proves nothing further about it.
- A question or wildcard search without a seed, and a URL search without a URL or keywords, leave a first run's report `processing`. The model states this as the code does and does not mark `error`.
- The generic helpers `uniq`, `uniqBy`, `filter` and `split` are modelled on sequences. `String.prototype.split(' ')` is split on one character; regular expressions are written out as the character tests they perform.
- Strings are sequences of characters. `toLowerCase` folds ASCII letters only, and white space is the set JavaScript's `\s` matches.
- String lengths and positions count characters, while JavaScript's `.length` and `indexOf` count UTF-16 code units. For a seed holding characters outside the Basic Multilingual Plane, the caret positions of the wildcard and question probes therefore differ from the source's.
- DiscoveryStore.ApplyPatch: a patch carries only `status` and `terms`, the two fields the expand stage writes. `dbUpdateDiscovery` accepts any report field except `_id` and `date`, and the other fields are not part of this model.

