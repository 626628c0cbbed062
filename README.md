# babytrack, modelled in Dafny

babytrack records a newborn's feedings, weights and diaper changes. It shows them on
Streamlit pages and asks a language model for feeding analyses, grounded in WHO/SFP
guideline passages retrieved from a vector index. This project models the deterministic
core of that system and proves what it promises:

- **Analysis pipeline.**
  - the feeding summary, age bucket, retrieval query and prompt of the analyzer
    (`Analyzer`);
  - the formatting of retrieved passages and the load-then-build index resolution
    (`Retriever`);
  - the cache/rebuild/no-documents decisions of the indexer, whose on-disk state is the
    class `Indexer.IndexStore`;
  - the day/week window and the 404 rules of the analysis endpoint (`AnalysisRoute`).
- **UI rules** that the pages compute inline:
  - the keyword time-window parser, history, footer and conversation saves of the chat
    view (`Chat`, with the session state as the class `Chat.ChatSession`);
  - the period, per-day buckets, averages over recorded days, time-since text and weight
    gain of the home view (`HomeView`);
  - the expected-feedings step function, target, averages and latest/recent selection of
    the home page (`HomePage`);
  - the start date, day range, per-day aggregation, type breakdown and recent list of the
    dashboard (`Dashboard`);
  - the merged, newest-first, filterable record table and its 1-based delete (`Record`).
- **CSV imports.**
  - the row rules, duplicate-day shift, minute offsets and posting counters of the Romane
    import (`RomaneImport`);
  - the row rules, notes and duplicate skip of the Louise import (`LouiseImport`).

Shared modules:

| module | holds |
|---|---|
| `Wrappers` | Option and Result |
| `Text` | decimal rendering and parsing, strip, ASCII lower-casing, substring search, join |
| `Clock` | timestamps as integer seconds, days since 1970-01-01 |
| `Sorting` | stable insertion sorts by an integer key, filter and count |
| `Care` | feeding, weight, diaper and baby records |
| `Buckets` | per-day sums |
| `CsvImport` | what both import scripts share |

External services are parameters of the members that use them:

- the language model (`complete`);
- the vector search (`Ranker`);
- the clock (`now`, `today`);
- the timestamp parser of the CSV scripts;
- the HTTP status each post returns;
- the chat endpoint's answer.

Loops in the source are methods with loop invariants, proved equal to a specification
function. The properties are proved about those functions.

## Model

| member | source | states |
|---|---|---|
| Analyzer.FeedingTypes | app/rag/analyzer.py:29 | the set holds the type of every feeding |
| Analyzer.TypeLabelMeaning | app/rag/analyzer.py:29-34 | only bottle gives "biberon uniquement", only breastfeeding gives "allaitement uniquement", both give "mixte (biberon + allaitement)" |
| Analyzer.DetailLines | app/rag/analyzer.py:37-41 | exactly one detail line per feeding |
| Analyzer.SummaryEmptyIff | app/rag/analyzer.py:24-25 | the summary is the "Aucun biberon enregistré" sentence exactly when the list is empty |
| Analyzer.SummaryReports | app/rag/analyzer.py:27-47 | a non-empty summary shows the count, the total of quantity_ml and the type label, then one line per feeding, sorted by ascending fed_at (sorted, same items) |
| Analyzer.SummaryIgnoresInputOrder | app/rag/analyzer.py:37-41 | two orderings of the same feedings, with distinct times, give the same summary |
| Analyzer.Summarize | app/rag/analyzer.py:22-48 | _summarize_feedings; SummaryEmptyIff and SummaryReports state what it shows |
| Analyzer.NoteShownIff | app/rag/analyzer.py:38-39 | a detail line carries the " — note : " suffix exactly when the notes are non-empty |
| Analyzer.AgeString | app/rag/analyzer.py:58-67 | the age text of the prompt; AgeStringRanges states its three ranges and read-back |
| Analyzer.AgeStringRanges | app/rag/analyzer.py:58-67 | under 14 days "N jours", then weeks while age//7 < 8, then "age//30 mois"; the number before the unit reads back as the age in days, weeks or months |
| Analyzer.PromptInOrder | app/rag/analyzer.py:69-100 | the prompt shows, in order, the RAG context, name, age string, birth weight, period label, summary and the ✅, ⚠️, 💡, 📊 section headers |
| Analyzer.BuildPrompt | app/rag/analyzer.py:51-100 | _build_prompt; PromptInOrder states the order of its fields and PromptNamesRetrievedSources what it shows of the context |
| Analyzer.AnalysisPrompt | app/rag/analyzer.py:139-147 | the prompt over the retrieved or fallback context; RagFallbackIff and PromptNamesRetrievedSources state its context |
| Analyzer.QueryModeIff | app/rag/analyzer.py:124-130 | the query ends with "biberon lait artificiel" exactly when some feeding is a bottle, else with "allaitement maternel", the empty list included |
| Analyzer.BuildQuery | app/rag/analyzer.py:124-130 | the retrieval query; QueryModeIff states which feeding mode it asks about |
| Analyzer.RetrieveRagContext | app/rag/analyzer.py:133-144 | retrieval with top_k 4, a supplied index winning over index_dir; a failed retrieval gives the fixed fallback notice; the docstores change only as the retrieval changes them, and a supplied index creates no directory and loads no embedding model, while without one the model is loaded once and only a missing index_dir is created |
| Analyzer.AnalyzeFeedings | app/rag/analyzer.py:103-158 | the answer is the model's completion of the prompt built from the age/type query and the retrieved (or fallback) context; a supplied index avoids any reload (no model load, no new directory), and without one the model is loaded once |
| Analyzer.RagFallbackIff | app/rag/analyzer.py:139-144 | the prompt's context is the fallback notice exactly when retrieval failed |
| Analyzer.RagContext | app/rag/analyzer.py:139-144 | the formatted passages, or the fallback notice when retrieval raised; RagFallbackIff states when |
| Analyzer.PromptNamesRetrievedSources | app/rag/analyzer.py:139-147 | every retrieved passage's source name appears in the prompt |
| Retriever.RetrieveResult | app/rag/retriever.py:35-45 | at most top_k passages, which are the best-ranked prefix of the search on the resolved index |
| Retriever.ResolveIndex | app/rag/retriever.py:35-40 | the supplied index, else the persisted one, else a fresh build; SuppliedIndexIgnoresDisk and RetrievalIsStable state its behaviour |
| Retriever.RetrieveContext | app/rag/retriever.py:17-45 | a supplied index touches nothing on disk; otherwise the index is loaded, and built only when loading finds no docstore |
| Retriever.SuppliedIndexIgnoresDisk | app/rag/retriever.py:35-40 | with a supplied index the result does not depend on the disk, and nothing is written |
| Retriever.RetrievalIsStable | app/rag/retriever.py:35-40 | after a retrieval found or built its index, the next one uses the same index and writes nothing |
| Retriever.Pad3 | app/rag/retriever.py:55 | three digits whose decimal value is n, the decimals of "%.3f" |
| Retriever.ScoreText | app/rag/retriever.py:55 | "%.3f" of the score in thousandths, or "N/A"; ScoreTextReadsBack states what it reads back as |
| Retriever.ScoreTextReadsBack | app/rag/retriever.py:55 | "N/A" without a score; otherwise a minus exactly for a negative score, then the whole part, a point and three decimals, which read back as the score |
| Retriever.Block | app/rag/retriever.py:56-60 | a block starts with "--- Extrait " and shows its number, source, score and stripped text in that order |
| Retriever.Blocks | app/rag/retriever.py:53-60 | one block per passage |
| Retriever.FormatContext | app/rag/retriever.py:48-61 | the loop builds the blocks numbered from 1 and joins them with a blank line |
| Retriever.ContextEmptyIff | app/rag/retriever.py:50-51 | the "Aucun contexte médical disponible." text is returned exactly when nothing was retrieved |
| Retriever.ContextText | app/rag/retriever.py:48-61 | what format_context returns; ContextEmptyIff, ContextShowsBlocksInOrder and ContextNamesEverySource state what it shows |
| Retriever.ContextShowsBlocksInOrder | app/rag/retriever.py:53-61 | the blocks appear in retrieval order, each with its fields in order |
| Retriever.ContextNamesEverySource | app/rag/retriever.py:56-58 | every passage's file_name, or "source inconnue", appears in the context |
| Indexer.Documents | app/rag/indexer.py:52-56 | one document per .md/.pdf/.txt file at any depth below the documents directory |
| Indexer.IndexStore.LoadIndex | app/rag/indexer.py:73-84 | fails exactly when no docstore.json exists, and only then without loading the embedding model |
| Indexer.IndexStore.BuildIndex | app/rag/indexer.py:28-70 | loads the model and creates index_dir; reuses the cache unless forced; fails without documents; persists a fresh build |
| Indexer.BuildThenLoad | app/rag/indexer.py:68 | after a successful build, loading gives the index just built |
| Indexer.BuildIsIdempotent | app/rag/indexer.py:45-49 | a second unforced build hits the cache, returns the same index and persists nothing new |
| Indexer.ForceRebuildIgnoresCache | app/rag/indexer.py:45-68 | a forced build ignores the cache and depends only on the documents |
| Indexer.NoDocumentsPersistsNothing | app/rag/indexer.py:58-59 | without ingestible files the build fails and nothing is persisted |
| Indexer.IngestibleFileIsRead | app/rag/indexer.py:52-56 | every supported file below the directory becomes a document |
| AnalysisRoute.WindowFeedings | app/services/feeding_service.py:72-84 | exactly the baby's feedings dated in the window, sorted by fed_at |
| AnalysisRoute.PeriodLabel | app/api/routes/analysis.py:62-68 | "day of MM/DD/YYYY" or "week from … to …"; EmptyPeriodIsNotFound and ResponseEchoesAnalyzer state where it appears |
| Clock.CivilFromDays | app/api/routes/analysis.py:64-68 | the (year, month, day) of a day number, with the month in 1..12 and the day in 1..31; DuplicatedDayIsFeb21 and AllTimeStartIsNewYear2020 check it on two dates |
| AnalysisRoute.Prepare | app/api/routes/analysis.py:54-74 | 404 "Baby N not found" for an unknown baby; a request gets through exactly when the baby is known and some feeding of theirs lies in the window, and then yields the baby, the label and a non-empty list of window feedings |
| AnalysisRoute.AnalyzeBabyFeedings | app/api/routes/analysis.py:37-99 | an unknown baby gives 404 "Baby N not found"; a success echoes the baby id and name |
| AnalysisRoute.ReferenceDefaultsToToday | app/api/routes/analysis.py:60 | no reference date means today |
| AnalysisRoute.EmptyPeriodIsNotFound | app/api/routes/analysis.py:70-74 | a known baby without feedings in the window gets a 404 naming the label, whatever the analyzer |
| AnalysisRoute.ResponseEchoesAnalyzer | app/api/routes/analysis.py:92-99 | the response carries the id, name, period, label, analysis and sources one-to-one in order |
| AnalysisRoute.DayWithinWeek | app/api/routes/analysis.py:62-68 | the week window (ref−6 .. ref) contains every feeding of the day window |
| AnalysisRoute.UnpackAsWritten | app/api/routes/analysis.py:81-98 | unpacking the analyzer's string into (text, sources) always raises; AsWrittenNeverAnswers states the 500 |
| AnalysisRoute.AnalyzeBabyFeedingsAsWritten | app/api/routes/analysis.py:37-99 | the route against the string analyze_feedings returns; AsWrittenNeverAnswers states that it never answers |
| AnalysisRoute.AsWrittenNeverAnswers | app/api/routes/analysis.py:81-98 | with the string analyze_feedings returns, every request that gets past the 404s fails with a 500 |
| AnalysisRoute.PairedAnalyzerAnswers | app/api/routes/analysis.py:81-99 | with a (text, sources) analyzer the same request succeeds with the analysis text |
| AnalysisRoute.KnownBabyWithFeedingAnswers | app/api/routes/analysis.py:54-99 | a known baby with a feeding in the window gets past both 404s and is answered |
| Chat.IntentOf | ui/views/chat.py:222-240 | the first keyword group mentioned wins, in the order today, yesterday, 3 days, week, month |
| Chat.Normalized | ui/views/chat.py:222 | the lower-cased, stripped text; TimeWindowIgnoresCase states that case does not matter |
| Chat.WindowOf | ui/views/chat.py:224-240 | the window of each keyword branch; TimeWindowMeaning states each |
| Chat.ParseTimeWindow | ui/views/chat.py:218-240 | start ≤ end ≤ now in every branch |
| Chat.TimeWindowMeaning | ui/views/chat.py:224-240 | today is (midnight, now), yesterday (midnight−1 day, midnight), then now−3, −7, −30 days and the default now−7 days, ending at now |
| Chat.TimeWindowIgnoresCase | ui/views/chat.py:222 | the window does not change when the text is lower-cased |
| Chat.HistoryGrowsByOne | ui/views/chat.py:143-148 | the next turn's history is this turn's history plus the dialogue messages added since |
| Chat.HistoryExcludesCurrent | ui/views/chat.py:143-148 | the history is every earlier user/assistant message, in order, never the current question |
| Chat.HistoryForApi | ui/views/chat.py:143-148 | history_for_api; HistoryGrowsByOne and HistoryExcludesCurrent state what it holds |
| Chat.SourceFooterMeaning | ui/views/chat.py:162-165 | no footer without sources; otherwise it starts with the Sources marker and lists the distinct names, sorted |
| Chat.SourceFooterNamesEverySource | ui/views/chat.py:164-165 | every source name appears in the footer |
| Chat.SourceFooter | ui/views/chat.py:161-165 | the sources footer; SourceFooterMeaning and SourceFooterNamesEverySource state what it shows |
| Chat.AssistantText | ui/views/chat.py:159-170 | the answer with its footer, or the error text; GenerateResponse appends it |
| Chat.FirstUserContent | ui/views/chat.py:183-185 | "Nouvelle conversation" when no message is from the user |
| Chat.Title | ui/views/chat.py:186 | at most 60 characters |
| Chat.TitleIsFirstUserMessage | ui/views/chat.py:183-186 | the title is the earliest user message cut to 60 characters |
| Chat.SaveFor | ui/views/chat.py:176-194 | nothing for an empty list; otherwise one save with that title and those messages, an update exactly when a conversation id is set |
| Chat.SavedConversationIsUpdated | ui/views/chat.py:188-194 | once a conversation was created, later saves update it |
| Chat.ChatSession.constructor | ui/views/chat.py:17-20 | no messages and no conversation at first |
| Chat.ChatSession.SelectBaby | ui/views/chat.py:23-26 | a different baby clears the messages and the conversation id; the same baby keeps them |
| Chat.ChatSession.Ask | ui/views/chat.py:128-131 | a non-empty question is appended as a user message |
| Chat.ChatSession.AutoSave | ui/views/chat.py:176-196 | records the save asked for and sets the conversation id of a created conversation |
| Chat.ChatSession.SaveCurrentIfNeeded | ui/views/chat.py:199-202 | the same as AutoSave |
| Chat.ChatSession.GenerateResponse | ui/views/chat.py:135-173 | sends the last question with its window and history, appends the answer with its footer (or the error text), then auto-saves |
| Chat.ChatSession.LoadConversation | ui/views/chat.py:205-213 | loads the conversation's messages and id, or clears both when loading fails |
| Chat.ChatSession.OpenConversation | ui/views/chat.py:59-63 | picking another conversation saves the current one first, then loads the target: its id and its messages, or nothing open when loading fails; picking the open one changes nothing |
| HomeView.ChartStart | ui/views/home.py:99-106 | today for "Today", the birth date for "All time", else today−(n−1) |
| HomeView.ChartCoversPeriod | ui/views/home.py:12-19 | each fixed period's chart spans exactly its number of days, ending today |
| HomeView.TodayTotalIsBucket | ui/views/home.py:57-63 | today's total is the sum of the quantities of exactly the feedings dated today |
| HomeView.TodayTotal | ui/views/home.py:57-62 | the volume of today's feedings; TodayTotalIsBucket states it is the chart's bucket for today |
| HomeView.LastFeeding | ui/views/home.py:66-67 | none without feedings today; otherwise one of them with the greatest fed_at |
| HomeView.SinceTextMeaning | ui/views/home.py:69-73 | "Nmin ago" under 60 minutes, otherwise "{h}h{mm} ago" with h×60+mm the minutes |
| HomeView.SinceText | ui/views/home.py:69-73 | the time-since text; SinceTextMeaning states its two forms |
| HomeView.DailyVolumes | ui/views/home.py:115-119 | the loop's buckets hold only days from the start on, each the sum of that day's quantities |
| HomeView.VolumeSeries | ui/views/home.py:121-123 | (today−start)+1 consecutive days, 0 where no feeding |
| HomeView.VolumeSeriesTotal | ui/views/home.py:115-123 | the series adds up to the volume of the feedings inside the chart |
| HomeView.RecordedAverage | ui/views/home.py:149-152 | no average when no day has a positive volume; otherwise the total of those days divided by their number, and with no negative day that total is the whole period's |
| HomeView.RecordedTotalIsTotal | ui/views/home.py:149-151 | the days left out add nothing to the total |
| HomeView.CurrentWeight | ui/views/home.py:64 | the last weight, if any |
| HomeView.WeightGainTelescopes | ui/views/home.py:184-186 | the gain, last minus first, is the sum of the successive differences |
| HomeView.WeightGain | ui/views/home.py:184-186 | last minus first from two weights on; WeightGainTelescopes states it is the sum of the changes |
| HomeView.GainTextSign | ui/views/home.py:187-188 | "+" before a non-negative gain, the minus sign alone before a loss, and the text reads back as the gain |
| HomeView.GainText | ui/views/home.py:187-188 | the signed gain; GainTextSign states its sign and read-back |
| HomeView.DiaperBuckets | ui/views/home.py:199-207 | per-day pee and poop counts from the start on; the days with either are the days with a recorded pee or poop |
| HomeView.RecordedDaysAtMostChanges | ui/views/home.py:236-239 | the recorded days never outnumber the changes, so the average is at least 1 when shown |
| HomeView.TodayDiapers | ui/views/home.py:84-87 | today's changes, those with pee and those with poop, each equal to today's bucket of the per-day sums the diaper chart uses; the last two never exceed the first |
| HomePage.AgeIgnoresBirthDate | ui/pages/home.py:23 | the age counts from created_at and not from birth_date |
| HomePage.AgeDays | ui/pages/home.py:23 | today minus the created_at day; AgeIgnoresBirthDate states it |
| HomePage.ExpectedPerDay | ui/pages/home.py:49-58 | 8 up to 14 days, 7 up to 30, 6 after |
| HomePage.ExpectedNonIncreasing | ui/pages/home.py:49-58 | never rises with age and stays between 6 and 8 |
| HomePage.TargetMl | ui/pages/home.py:67 | 90 × expected feedings, between 540 and 720 |
| HomePage.AvgPerFeeding | ui/pages/home.py:94-97 | none without feedings today; otherwise today_ml // count |
| HomePage.AvgOfValidFeedings | ui/pages/home.py:96 | with positive quantities the average is at least 1 ml |
| HomePage.LatestFeeding | ui/pages/home.py:45 | none exactly without feedings today; LatestIsNewest states which one it is |
| HomePage.LatestIsNewest | ui/pages/home.py:45 | the first of the newest-first sort is a feeding with the greatest fed_at |
| HomePage.SinceLastReadsBack | ui/pages/home.py:80-91 | "{m}min ago" with m the minutes since the latest feeding, which read back |
| HomePage.SinceLastText | ui/pages/home.py:80-91 | the minutes since the latest feeding, or "No feedings yet"; SinceLastReadsBack states the read-back |
| HomePage.Recent | ui/pages/home.py:178 | the 5 newest of today's feedings (all when fewer), newest first, each at most as often as in the list, and none left out newer than the last shown |
| HomePage.Icon | ui/pages/home.py:182 | "🍼" exactly for a bottle feeding, "🤱" otherwise |
| HomePage.TypeOfLabels | ui/pages/home.py:123-129 | "🍼 Bottle" maps to bottle, "🤱 Breastfeeding" to breastfeeding |
| HomePage.TypeOfLabel | ui/pages/home.py:129 | bottle when the label contains "Bottle"; TypeOfLabels states the two form choices |
| HomePage.NotesOrNone | ui/pages/home.py:136 | empty notes are sent as None, others unchanged |
| HomePage.NewFeedingIsValid | ui/pages/home.py:122-137 | a feeding entered in the form (1..500 ml) is a valid feeding of the selected baby |
| HomePage.NewFeeding | ui/pages/home.py:122-137 | what "Save feeding" sends; NewFeedingIsValid states that it is a valid feeding of the selected baby |
| HomePage.NewWeight | ui/pages/home.py:155-163 | the weight posted is the baby's, with the grams entered and None for empty notes |
| Dashboard.StartDate | ui/pages/dashboard.py:39-42 | end−(days−1) for a fixed period, 2020-01-01 for "All time" |
| Dashboard.AllTimeStartIsNewYear2020 | ui/pages/dashboard.py:42 | the "All time" start day is the calendar date 2020-01-01 |
| Dashboard.PeriodSpansItsDays | ui/pages/dashboard.py:26-42 | each fixed period spans its number of days up to the end date |
| Dashboard.DayRange | ui/pages/dashboard.py:84-87 | (end−start)+1 consecutive days from start |
| Dashboard.DayRangeMembers | ui/pages/dashboard.py:84-87 | a day is in the range exactly when start ≤ day ≤ end |
| Dashboard.FeedingDays | ui/pages/dashboard.py:61 | exactly the dates of the feedings: every feeding's date is in the set and every day in it is some feeding's date; no more days than feedings |
| Dashboard.PeriodMetrics | ui/pages/dashboard.py:55-62 | nothing without feedings; the total and count; a daily divisor of the period length, or for "All time" the number of distinct feeding days |
| Dashboard.DailyTotals | ui/pages/dashboard.py:78-82 | the loop's per-day totals and counts are the day sums |
| Dashboard.ChartData | ui/pages/dashboard.py:84-90 | one volume and one count per day of the range |
| Dashboard.ChartsAccountForFeedings | ui/pages/dashboard.py:78-90 | the counts add up to the feedings in range and the volumes to their total; all of them when all lie in range |
| Dashboard.TypeCounts | ui/pages/dashboard.py:137-140 | the number of bottle feedings and of breastfeedings, adding up to the feedings, each zero exactly when no feeding has that type |
| Dashboard.RecentFeedings | ui/pages/dashboard.py:162 | the 8 newest feedings (all when fewer), newest first, each at most as often as in the list, and none left out newer than the last shown |
| Dashboard.LossShowsBothSigns | ui/pages/dashboard.py:198-199 | 3300 g then 3250 g is captioned "+-50g" |
| Dashboard.GainCaptionAsWritten | ui/pages/dashboard.py:197-199 | the caption as written, "+" before any gain; LossShowsBothSigns gives the loss it misprints |
| Dashboard.GainCaption | ui/pages/dashboard.py:197-199 | a caption exactly with two weights or more, signed as on the home view |
| Dashboard.GainCaptionReadsBack | ui/pages/dashboard.py:198-199 | the caption starts with "+" exactly for a non-negative gain and reads back as last minus first |
| Record.NotesText | ui/views/record.py:39 | missing notes become "" |
| Record.FeedingRow | ui/views/record.py:33-43 | the "🍼 Bottle" label exactly for a bottle, "🤱 Breast" exactly for breastfeeding; the volume text reads back as quantity_ml; the row deletes that feeding |
| Record.WeightRow | ui/views/record.py:45-54 | the "⚖️ Weight" label; the value reads back as weight_g; the row deletes that weight |
| Record.RowTypeLabel | ui/views/record.py:34 | "🍼 Bottle" exactly for a bottle feeding, "🤱 Breast" exactly for breastfeeding |
| Record.BuildRows | ui/views/record.py:31-57 | the append loops and the sort give the rows sorted newest first, the same rows as the records |
| Record.OneRowPerRecord | ui/views/record.py:31-57 | exactly one feeding row per feeding and one weight row per weight |
| Record.ApplyFilter | ui/views/record.py:74-75 | "All" keeps the rows; another type keeps exactly the rows of that type; a newest-first table stays newest first, so the 1-based row number indexes the table shown |
| Record.TypeFiltersPartition | ui/views/record.py:65-75 | the three type filters split the rows |
| Record.RecordsCaption | ui/views/record.py:59-77 | nothing when there are no rows, else the count of shown rows |
| Record.DeleteTarget | ui/views/record.py:98-111 | row idx (1-based) is deleted through the feeding endpoint when it is a feeding, the weight endpoint otherwise |
| Record.DeleteHitsItsRecord | ui/views/record.py:98-111 | the deleted id is one of the records of the kind of the chosen row |
| CsvImport.Field | scripts/import_romane_csv.py:56 | a missing column is ""; no surrounding whitespace |
| CsvImport.PostAll | scripts/import_romane_csv.py:123-132 | the accepted count is the entries answered 200 or 201, and both counters add up to the entries |
| CsvImport.KeysOfMembers | scripts/import_romane_csv.py:51-67 | a key is in the seen set exactly when some kept row has it |
| RomaneImport.AdjustedTime | scripts/import_romane_csv.py:65-79 | a first 2026-02-21 timestamp moves one day back, then a minutes-ago value is subtracted when it reads |
| RomaneImport.DuplicatedDayIsFeb21 | scripts/import_romane_csv.py:69 | the shifted day is the calendar date 2026-02-21 |
| RomaneImport.Volume | scripts/import_romane_csv.py:82-86 | int(float(ml)) when positive; VolumeRule states it |
| RomaneImport.FeedingAt | scripts/import_romane_csv.py:81-93 | a bottle feeding of the volume at the adjusted time; DatedRowRules states it |
| RomaneImport.DiaperAt | scripts/import_romane_csv.py:95-106 | a change exactly when Urines or Selles is "Oui"; DatedRowRules states it |
| RomaneImport.ParseRow | scripts/import_romane_csv.py:56-106 | every feeding a row emits is a positive bottle feeding, every diaper has pee or poop |
| RomaneImport.UndatedRowIsSkipped | scripts/import_romane_csv.py:56-63 | a row without a readable timestamp emits nothing and is not seen |
| RomaneImport.DatedRowRules | scripts/import_romane_csv.py:65-106 | a dated row adds its raw stamp to the seen set; its feeding and diaper carry the same adjusted time; a diaper exactly when Urines or Selles is "Oui", flags by equality |
| RomaneImport.VolumeRule | scripts/import_romane_csv.py:82-93 | a feeding exactly when the ml field reads as a number truncated to a positive int |
| RomaneImport.Parse | scripts/import_romane_csv.py:47-108 | at most one feeding and one diaper per row, every feeding positive bottle, every diaper with pee or poop |
| RomaneImport.ParseCsv | scripts/import_romane_csv.py:47-108 | the loop emits exactly the entries of Parse, in row order |
| RomaneImport.ReadRow | scripts/import_romane_csv.py:56-106 | the loop body computes the row function |
| RomaneImport.SeenAreDatedRaws | scripts/import_romane_csv.py:51-67 | the seen set is the raw stamps of the dated rows |
| RomaneImport.DuplicateIffSeenBefore | scripts/import_romane_csv.py:66-70 | a row is a duplicate exactly when an earlier dated row had the same raw stamp |
| RomaneImport.ImportAll | scripts/import_romane_csv.py:119-144 | each ok counter is the entries answered 200/201, and ok plus errors is the number of entries, at most the rows |
| LouiseImport.NotesTable | scripts/import_louise_csv.py:35-50 | the notes for each Urines/Selles pair: none, "urines: yes", "stools: yes/no", or both joined by ", " |
| LouiseImport.Notes | scripts/import_louise_csv.py:35-50 | the row's notes; NotesTable and UrinesNotedIff state them |
| LouiseImport.UrinesNotedIff | scripts/import_louise_csv.py:39-40 | "urines: yes" is noted exactly when Urines is "Oui" |
| LouiseImport.RowRules | scripts/import_louise_csv.py:23-51 | a row is kept exactly when both fields are present and read and the volume is positive; it becomes a bottle feeding with the row's notes |
| LouiseImport.ParseRow | scripts/import_louise_csv.py:23-51 | a kept row is a bottle feeding with positive volume; RowRules states when a row is kept |
| LouiseImport.ParseAll | scripts/import_louise_csv.py:17-52 | at most one entry per row, each a bottle feeding with positive volume |
| LouiseImport.ParseCsv | scripts/import_louise_csv.py:17-52 | the loop emits exactly the entries of ParseAll |
| LouiseImport.ReadRow | scripts/import_louise_csv.py:23-51 | the loop body computes the row function |
| LouiseImport.BuildNotes | scripts/import_louise_csv.py:36-50 | the appends and the join give the row's notes |
| LouiseImport.FindLouise | scripts/import_louise_csv.py:58 | the first baby whose lower-cased name is "louise", or none when there is no such baby |
| LouiseImport.ExistingTimes | scripts/import_louise_csv.py:73 | exactly the times of the existing feedings |
| LouiseImport.ImportEntries | scripts/import_louise_csv.py:79-90 | skipped counts the entries at a known time, imported the others answered 200/201, and the two never exceed the entries |
| LouiseImport.SkipsExactlyKnownTimes | scripts/import_louise_csv.py:73-82 | nothing is skipped exactly when no entry shares a time with an existing feeding |
| Sorting.Newest | ui/pages/dashboard.py:162 | the first n of the newest-first order: sorted, drawn from the list, and none left out is newer than the last shown |
| Sorting.NewestSubMultiset | ui/pages/dashboard.py:162 | the items kept are a sub-multiset of the list: no item is shown more often than it occurs |
| Care.TotalMlOfSorted | app/rag/analyzer.py:27-40 | sorting the feedings keeps their total |
| Buckets.Series | ui/views/home.py:121-123 | one value per day from the start, 0 where the map has none |

## Left out

- The language model call and the embedding model: the answer is `complete(prompt)`. The
  vector search is a `Ranker` parameter. Chunking and persistence formats belong to the
  vector library.
- Floating point:
  - the `%.3f` score (a score is kept in thousandths);
  - the `.0f`/`.1f` averages (only their integer numerators and divisors are modelled);
  - the `int(float(x))` forms beyond decimal text (exponents, `inf`, `nan`, underscores).
- RomaneImport.Volume: reads `int(float(ml))` as truncating the exact decimal. Python
  first rounds the text to a double, so "89.99999999999999999" gives 90 there and 89 in
  the model, and integers above 2^53 are not kept exactly. The minutes column of
  `RomaneImport.AdjustedTime` is read the same way.
- RomaneImport.AdjustedTime: does not model OverflowError
  (scripts/import_romane_csv.py:73-79). A "Il y a X minutes" value that moves the time
  outside years 1 to 9999, such as 2000000000, or one above about 1.44e12 minutes
  (the largest `timedelta`), raises OverflowError. `except (ValueError, TypeError)` does
  not catch it, so `parse_csv` aborts after `main` has already deleted every baby and
  created Romane (scripts/import_romane_csv.py:112-119), and nothing is imported. The
  model shifts the time by any number of minutes, and `RomaneImport.ImportAll` posts
  the row.
- Date and time parsing and formatting:
  - `strptime` is a parameter;
  - ISO strings are integer seconds, and comparisons of ISO date strings are comparisons
    of day numbers;
  - sub-second precision is not modelled. `LouiseImport.ExistingTimes` therefore treats
    `fed_at[:19]` as the whole-second time.
- Text:
  - `lower` and `strip` cover ASCII letters and whitespace only;
  - `int()` is read as an optional sign and decimal digits.
- Short CSV rows, where `csv.DictReader` gives `None` values, are not modelled.
- File reading and HTTP requests are not modelled: each post's status is a parameter.
- The import scripts' console output, `delete_all_babies` and `create_romane` are not
  modelled. Neither is the POST that creates Louise when `find_louise` finds no baby
  (scripts/import_louise_csv.py:60-67); its birth date and weight are plain request data.
- Streamlit and Plotly rendering, session routing and widget bounds are not modelled. This
  includes the record page's delete box when a filter leaves no rows; `Record.DeleteTarget`
  requires a row.
- The dashboard's past AI reports list (ui/pages/dashboard.py:210-237) only renders
  stored reports and is not modelled.
- `list.sort` in place is modelled as reassigning the sorted list.
- Ties in `ORDER BY fed_at` and in the Python sorts are broken by the model's insertion
  sort, which need not match the database's order for equal times.
  Analyzer.SummaryIgnoresInputOrder: assumes distinct feeding times, because equal times
  may be listed in either order.
- ui/api_client.py defines only `list_babies`, `create_baby`, `add_feeding`,
  `get_feedings`, `get_analysis` and `health`. The pages also call `get_weights`,
  `get_diapers`, `add_weight`, `delete_feeding`, `chat`, `list_conversations`,
  `get_conversation`, `save_conversation`, `update_conversation`,
  `list_analysis_history`, `get_analysis_report` and `delete_analysis_report`. Each of
  those raises AttributeError inside a `try`, so, as written:
  - the dashboard always stops at "Could not load data" (ui/pages/dashboard.py:48-53).
    No `Dashboard` member is reached. The model describes the page as if
    `get_weights` existed.
  - the record table and the home view always see no weights and no diapers
    (ui/views/record.py:24-27, ui/views/home.py:45-53). The weights and diapers are
    parameters (`ws`, the diaper list), and the empty lists are the as-written case.
  - the record page's and the home page's delete buttons never delete a feeding
    (ui/views/record.py:105, ui/pages/home.py:195). `Record.DeleteTarget` gives the
    request the page means to send.
  - every chat question takes the error branch (ui/views/chat.py:150-160). The reply is
    a parameter of `Chat.ChatSession.GenerateResponse`, covering both branches.
  - no past conversation is ever listed or opened. `list_conversations` raises, so
    `conversations` is always `[]` (ui/views/chat.py:30-33), and the picker offers
    only its placeholder entry 0 (ui/views/chat.py:51-59).
    `Chat.ChatSession.OpenConversation` and `Chat.ChatSession.LoadConversation`
    describe the path the page means to take and never reaches as written. Were it
    reached, `get_conversation` would raise too, and the session would be cleared
    (ui/views/chat.py:205-213): `LoadConversation` with `loaded` None.
  - the home page's "Save weight" button always shows "Error: …" and saves nothing
    (ui/pages/home.py:155-167). `HomePage.NewWeight` is the payload it means to send,
    which as written is never sent.
  - every auto-save fails silently. `Chat.ChatSession.AutoSave` records the save it
    asks for, and `created` None is the as-written outcome.
- The asynchronous executor hop of the analysis route is not modelled.
- CRUD services, Pydantic models and FastAPI wiring are not modelled. Only their field
  constraints are reused, and `AnalysisRoute.WindowFeedings` stands for the range query.
- LouiseImport.ImportEntries: the set of known times is the one read before the loop, as in
  the script, so two export rows at the same second are both posted.

## Findings

| source | as written | input that shows it | evidently intended | confidence | as-written member | corrected member |
|---|---|---|---|---|---|---|
| app/api/routes/analysis.py:81 | the route unpacks `analysis_text, sources` from `analyze_feedings`, which returns a single `str` (app/rag/analyzer.py:158) | any known baby with feedings in the window: unpacking the string (or `**` on a character) raises, giving a 500 | the analyzer returns the (text, sources) pair the route and its response model expect | high, not executed | AnalysisRoute.AnalyzeBabyFeedingsAsWritten, AnalysisRoute.AsWrittenNeverAnswers | AnalysisRoute.AnalyzeBabyFeedings, AnalysisRoute.PairedAnalyzerAnswers |
| ui/pages/dashboard.py:199 | the caption is `+{gain}g` whatever the sign of the gain | weights 3300 g then 3250 g give "+-50g" | a sign only before a non-negative gain, as ui/views/home.py:187 does | medium, not executed | Dashboard.GainCaptionAsWritten, Dashboard.LossShowsBothSigns | Dashboard.GainCaption, Dashboard.GainCaptionReadsBack |
