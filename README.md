# Domain Valuation Genius — a verified model of its client-side bookkeeping

Domain Valuation Genius is a single-page web app that asks a generative-AI service for the
market value of domain names. It keeps several stores in the browser's `localStorage`:

- a portfolio of saved valuations, unique by domain name, that expires after 24 hours;
- a 7-day history of batch appraisals, which the shipped app never reaches: `App.tsx` does not mount `HistoryProvider` (App.tsx:23-33), no page calls `addBatchToHistory`, and `HistoryPage`, `HistoryChartPage` and `MarketTrendsPage` have no route (App.tsx:57-68); the model covers that code as written all the same;
- a login flag;
- a queue of toast messages that dismiss themselves.

The pages put list and string handling around those stores and around the AI answers:

- parsing the textarea of domains;
- selecting and toggling domains;
- choosing a registrar link;
- deciding when a saved record must be re-appraised;
- building the CSV report;
- the comparison table and its dotted-path lookup;
- chart labels;
- grouping the history by day;
- cutting the JSON out of the model's free text.

This project models that logic in Dafny and proves what each piece promises.

How the model is laid out:

- There is one module per source file.
- A store or page whose state the source updates in place is a `class`:
  - `PortfolioStore`, `HistoryStore`, `ToastQueue` and `AuthState` for the stores;
  - `HomeState`, `ResultsView`, `PortfolioView`, `DetailView`, `ChartView` and `TrendsView` for the pages.
- Each method states the new state as a function of the old one, including what is written to storage.
- The pure parts are functions, and lemmas about them carry the properties.
- `localStorage` is the class `Storage.LocalStorage`, a `map<string, string>` that may be unusable, in which case every access throws.
- `JSON.stringify`/`JSON.parse` are a pair of functions (`Storage.Codec`).
- `Date.now()` is a `now` parameter.
- Every answer of the AI service is a parameter: a `Result` carrying the answer's text or a failure, plus a parser.
- Timer ticks and toast dismissal are explicit method calls.

Helper modules:

- `Text` holds the JavaScript string built-ins the code uses: `split`, `join`, `trim`, `indexOf`, `includes`, `toLowerCase`, `slice(-2)` and number-to-text.
- `Seqs` holds `Array.prototype.filter` and its laws.
- `Types` holds the record shapes.
- `Wrappers` holds `Option` and `Result`.

## Model

| member | source | states |
|---|---|---|
| PortfolioContext.KeepFresh | context/PortfolioContext.tsx:29-31 | an item survives loading iff it has a nonzero `savedAt` no older than 24 hours (boundary inclusive) |
| PortfolioContext.LoadPortfolio | context/PortfolioContext.tsx:23-36 | a missing key, a throwing read or unparseable text loads as the empty list; everything loaded is fresh |
| PortfolioContext.KeepFreshUnique | context/PortfolioContext.tsx:29-31 | the 24-hour load filter keeps domain names unique |
| PortfolioContext.ExpiryBoundary | context/PortfolioContext.tsx:30-31 | an item saved exactly 24 hours ago is kept, one saved a millisecond earlier is dropped |
| PortfolioContext.LoadKeepsOrder | context/PortfolioContext.tsx:31 | the expiry pass keeps stored order (distributes over concatenation) |
| PortfolioContext.ReloadRoundTrip | context/PortfolioContext.tsx:25-44 | what is persisted loads back unchanged while its items are fresh |
| PortfolioContext.FindIndex | context/PortfolioContext.tsx:71 | the index of the first item with the name, or -1 when none has it |
| PortfolioContext.Find | context/PortfolioContext.tsx:95-97 | `getValuation`: some item iff the name is in the list, and then an item of the list with that name |
| PortfolioContext.NewItem | context/PortfolioContext.tsx:53-60 | the placeholder keeps the name and the estimate as value, has zero projections and no series, and survives loading for exactly 24 hours |
| PortfolioContext.AddAll | context/PortfolioContext.tsx:46-65 | `addValuations` keeps the old list as a prefix and appends only placeholder items (value = estimate, zero projections, empty influencers, `savedAt = now`) for names not already present |
| PortfolioContext.AddValuationsTo | context/PortfolioContext.tsx:48-64 | the copy-and-push loop computes exactly `AddAll` |
| PortfolioContext.AddAllNames | context/PortfolioContext.tsx:49-62 | afterwards a name is present iff it was before or came with the input |
| PortfolioContext.AddAllUnique | context/PortfolioContext.tsx:50 | `addValuations` preserves uniqueness of domain names |
| PortfolioContext.AddAllPresent | context/PortfolioContext.tsx:50 | adding only names already present changes nothing |
| PortfolioContext.AddAllIdempotent | context/PortfolioContext.tsx:46-65 | repeating the same call, at any later time, changes nothing |
| PortfolioContext.FirstDuplicateWins | context/PortfolioContext.tsx:49-61 | a duplicate later in the same input is skipped: the first one is added |
| PortfolioContext.DuplicateSaveKeepsFirstValue | context/PortfolioContext.tsx:50-55 | re-saving a saved domain at another value keeps the first value |
| PortfolioContext.Upsert | context/PortfolioContext.tsx:68-80 | the list grows by at most one, the domain is then present, and items with other names at the old indices are untouched |
| PortfolioContext.UpsertThenFind | context/PortfolioContext.tsx:68-80 | after `addDetailedValuation` the domain reads back as the new record with the old cached series and `savedAt = now`; other domains read back as before |
| PortfolioContext.UpsertLength | context/PortfolioContext.tsx:71-79 | the length is kept for a present domain and grows by one for an absent one |
| PortfolioContext.UpsertKeepsHistory | context/PortfolioContext.tsx:74-76 | a cached chart series survives a fresh appraisal |
| PortfolioContext.UpsertUnique | context/PortfolioContext.tsx:68-80 | the upsert preserves uniqueness of domain names |
| PortfolioContext.UpsertKeepsNames | context/PortfolioContext.tsx:71-77 | re-appraising a domain already saved replaces it in place, so the names and their order stay the same |
| PortfolioContext.Merge | context/PortfolioContext.tsx:86 | an empty patch gives the item back, and a patch that does not rename keeps the name |
| PortfolioContext.UpdateAll | context/PortfolioContext.tsx:83-89 | `updateValuation` keeps the length |
| PortfolioContext.UpdateAbsent | context/PortfolioContext.tsx:85-87 | updating an absent name is a no-op |
| PortfolioContext.UpdateEffect | context/PortfolioContext.tsx:86 | items with other names are untouched; an item with the name takes each of the seven fields from the patch when the patch carries it and keeps its own otherwise |
| PortfolioContext.UpdateIdempotent | context/PortfolioContext.tsx:83-89 | applying a name-keeping patch twice equals applying it once |
| PortfolioContext.UpdateKeepsNames | context/PortfolioContext.tsx:83-89 | a name-keeping patch keeps the list of names and their uniqueness |
| PortfolioContext.CacheHistoryThenFind | context/PortfolioContext.tsx:83-89 | patching `historicalData` on a saved domain makes it read back with that series |
| PortfolioContext.RemoveAll | context/PortfolioContext.tsx:91-93 | `removeValuation` keeps exactly the items with other names |
| PortfolioContext.RemoveUnique | context/PortfolioContext.tsx:91-93 | removing a domain keeps domain names unique |
| PortfolioContext.RemoveThenFind | context/PortfolioContext.tsx:91-97 | after removal `getValuation` finds nothing |
| PortfolioContext.RemoveAbsentAndTwice | context/PortfolioContext.tsx:92 | removing an absent name is a no-op; removing twice is removing once |
| PortfolioContext.RemoveKeepsOrder | context/PortfolioContext.tsx:92 | removal keeps the order of the rest |
| PortfolioContext.PortfolioStore.Load | context/PortfolioContext.tsx:23-44 | mount loads with the expiry pass and writes the result back under `domainPortfolio` |
| PortfolioContext.PortfolioStore.Save | context/PortfolioContext.tsx:38-44 | the whole list is written under `domainPortfolio`, unless storage is unusable |
| PortfolioContext.PortfolioStore.AddValuations | context/PortfolioContext.tsx:46-66 | the list becomes `AddAll` of the old one and is persisted |
| PortfolioContext.PortfolioStore.AddDetailedValuation | context/PortfolioContext.tsx:68-81 | replace at the first match's index keeping its series, or append; persisted |
| PortfolioContext.PortfolioStore.UpdateValuation | context/PortfolioContext.tsx:83-89 | the shallow merge into every item with the name; persisted |
| PortfolioContext.PortfolioStore.RemoveValuation | context/PortfolioContext.tsx:91-93 | every item with the name dropped; persisted |
| HistoryContext.KeepRecent | context/HistoryContext.tsx:24-26 | an entry survives loading iff its timestamp is no older than 7 days |
| HistoryContext.LoadHistory | context/HistoryContext.tsx:18-31 | a missing key, a throwing read or unparseable text loads as the empty list |
| HistoryContext.RecentBoundary | context/HistoryContext.tsx:25-26 | the 7-day boundary is inclusive |
| HistoryContext.LoadKeepsOrder | context/HistoryContext.tsx:26 | loading keeps stored order |
| HistoryContext.ReloadRoundTrip | context/HistoryContext.tsx:20-39 | the persisted history loads back unchanged within 7 days |
| HistoryContext.NewHistoryItem | context/HistoryContext.tsx:42-46 | a new entry carries the batch and the second clock reading as its timestamp, and survives loading for exactly 7 days |
| HistoryContext.Prepend | context/HistoryContext.tsx:47 | the new entry goes in front and the old list follows unchanged |
| HistoryContext.IdReadsBack | context/HistoryContext.tsx:42-46 | the id is the decimal text of the first clock reading and reads back as it; it equals the timestamp exactly when the two readings agree |
| HistoryContext.IdsCollideIffSameMillisecond | context/HistoryContext.tsx:43 | two entries share an id exactly when their id readings fall in the same millisecond |
| HistoryContext.NewestFirst | context/HistoryContext.tsx:47 | adding A, B, C, each with its own clock readings, leaves C, B, A in front of the old list, which follows unchanged |
| HistoryContext.HistoryStore.Load | context/HistoryContext.tsx:18-39 | mount loads with the 7-day filter and writes the result back |
| HistoryContext.HistoryStore.AddBatchToHistory | context/HistoryContext.tsx:41-48 | given the two `Date.now()` readings (id, then timestamp), the new entry is prepended and the list persisted under `domainValuationHistory` |
| ToastContext.NewToast | context/ToastContext.tsx:18-20 | the toast has id `now`, the message, and the success type by default |
| ToastContext.RemoveById | context/ToastContext.tsx:14-16 | exactly the toasts with other ids remain |
| ToastContext.RemoveUnknownAndTwice | context/ToastContext.tsx:15 | removing an unknown id is a no-op; removing twice is removing once |
| ToastContext.RemoveKeepsOrder | context/ToastContext.tsx:15 | removal keeps the order of the rest |
| ToastContext.ShowThenDismiss | context/ToastContext.tsx:18-24 | a toast's own timer takes it off again, leaving the earlier toasts minus any with the same id |
| ToastContext.ToastQueue.constructor | context/ToastContext.tsx:12 | no toasts and no timers at first |
| ToastContext.ToastQueue.ShowToast | context/ToastContext.tsx:18-25 | one toast appended and one 4000 ms timer for its id set; every toast on screen has a timer |
| ToastContext.ToastQueue.RemoveToast | context/ToastContext.tsx:14-16 | the queue becomes `RemoveById` of the old one |
| ToastContext.ToastQueue.FireNextTimer | context/ToastContext.tsx:22-24 | the earliest timer fires and removes the toasts with its id |
| AuthContext.FlagFromStorage | context/AuthContext.tsx:13-19 | logged in iff the stored text is exactly "true"; missing, other text or a throwing read give false |
| AuthContext.FlagText | context/AuthContext.tsx:23 | the persisted text is "true" or "false" |
| AuthContext.FlagRoundTrip | context/AuthContext.tsx:13-23 | loading what was persisted yields the same flag |
| AuthContext.AuthState.Load | context/AuthContext.tsx:13-27 | mount reads the flag and writes it back as text |
| AuthContext.AuthState.Login | context/AuthContext.tsx:29-31 | the flag becomes true and "true" is stored, whatever the previous state |
| AuthContext.AuthState.Logout | context/AuthContext.tsx:33-35 | the flag becomes false and "false" is stored, whatever the previous state |
| GeminiService.PromptListsDomainsInOrder | services/geminiService.ts:77 | the batch prompt holds every domain, in input order, separated by ", " |
| GeminiService.CallAndParse | services/geminiService.ts:92-97 | the trimmed answer is parsed; any failure becomes the function's one message |
| GeminiService.GetBatchValuation | services/geminiService.ts:75-98 | succeeds iff the call succeeds and the trimmed answer parses, with the parsed batch; every failure carries "Failed to get valuations from AI." |
| GeminiService.GetDetailedValuation | services/geminiService.ts:100-119 | succeeds iff the call succeeds and the trimmed answer parses, with the parsed record; every failure carries "Failed to get detailed valuation from AI." |
| GeminiService.GetInfluencerExplanation | services/geminiService.ts:121-138 | fails iff the call fails, with "Failed to get explanation from AI."; otherwise the answer's text untrimmed |
| GeminiService.GetHistoricalValuation | services/geminiService.ts:152-178 | succeeds iff the call succeeds and the trimmed answer parses, with its `history` key (possibly missing); every failure carries "Failed to get historical valuation from AI." |
| GeminiService.GetDomainRecommendations | services/geminiService.ts:257-277 | succeeds iff the call succeeds and the trimmed answer parses, with its `recommendations` key (possibly missing); every failure carries "Failed to get domain recommendations from AI." |
| GeminiService.JsonSpan | services/geminiService.ts:213 | the greedy `{…}` match: present iff some '{' precedes some '}', and then it runs from the first '{' to the last '}' |
| GeminiService.CheckDomainAvailability | services/geminiService.ts:180-235 | never fails: a failed call, no span or malformed JSON give `{available: false, registrar: null, purchasePrice: null}`, otherwise the parsed span |
| GeminiService.NoBraceNoAvailability | services/geminiService.ts:213-234 | text without a '}' after its first '{' gives the default whatever the parser |
| GeminiService.FencedJson | services/geminiService.ts:299 | the lazy fence match: present iff a "```json\n" is followed by a "\n```", and then the text between the first opening and the nearest closing fence |
| GeminiService.GetTrendingDomains | services/geminiService.ts:279-317 | succeeds iff the call succeeds and a non-empty fenced block parses; every failure carries "Failed to get trending domains from AI."; on success the value is the parsed `recommendations` (undefined when the object has none) |
| HomePage.TrimAll | pages/HomePage.tsx:36 | one entry per line, each the line trimmed, in order |
| HomePage.ParseDomainList | pages/HomePage.tsx:36 | no entry is empty or has surrounding whitespace |
| HomePage.AtMostOnePerLine | pages/HomePage.tsx:36 | at most one entry per line of the textarea |
| HomePage.ParseOfLines | pages/HomePage.tsx:36 | text made of lines parses to the trimmed non-blank lines, in order |
| HomePage.ParseConcatenates | pages/HomePage.tsx:36 | the entries of one block of lines come before those of the next |
| HomePage.ParseEmpty | pages/HomePage.tsx:36 | empty text parses to no domains |
| HomePage.ParseRoundTrip | pages/HomePage.tsx:36 | a list of trimmed non-empty names written one per line parses back to itself |
| HomePage.AppraiseRequest | pages/HomePage.tsx:36-40 | either the error 'Please enter at least one domain name.' or a non-empty list of trimmed names |
| HomePage.BlankInputRefused | pages/HomePage.tsx:37-40 | input whose every line is blank is refused |
| HomePage.BlankLinesDropped | pages/HomePage.tsx:36 | lines that trim to nothing are all dropped |
| HomePage.HomeState.constructor | pages/HomePage.tsx:10-12 | not loading, no error, zero seconds |
| HomePage.HomeState.StartAppraise | pages/HomePage.tsx:35-44 | refused input sets the error and requests nothing; otherwise the list is requested, the counter reset to 0, loading on and the error cleared |
| HomePage.HomeState.FinishAppraise | pages/HomePage.tsx:46-54 | a failure sets 'Failed to appraise domains. Please try again.'; loading ends either way |
| HomePage.HomeState.Tick | pages/HomePage.tsx:18-20 | while loading, one tick adds exactly one second |
| ResultsPage.InitialSelection | pages/ResultsPage.tsx:16 | every domain of the batch starts selected, one entry per valuation, in valuation order; no batch, no selection |
| ResultsPage.ShowsNoResults | pages/ResultsPage.tsx:24 | the "No Results" screen shows exactly when nothing starts selected |
| ResultsPage.Toggle | pages/ResultsPage.tsx:47-51 | the toggled domain's membership flips; every other domain's is unchanged |
| ResultsPage.ToggleTwice | pages/ResultsPage.tsx:47-51 | toggling an unselected domain twice restores the selection |
| ResultsPage.ToggleDistinct | pages/ResultsPage.tsx:47-51 | toggling keeps the selection free of repeats |
| ResultsPage.SelectAll | pages/ResultsPage.tsx:56-60 | the result is either empty or every domain in valuation order, and it is empty exactly when the selection is as long as the domain list or there are no domains |
| ResultsPage.SelectAllClearsIffAllSelected | pages/ResultsPage.tsx:56-60 | for a selection built by toggling, the length test clears exactly when every domain is selected |
| ResultsPage.SelectedValuations | pages/ResultsPage.tsx:64 | a valuation is saved iff its domain is selected |
| ResultsPage.InitialSelectionSavesAll | pages/ResultsPage.tsx:16-66 | with the initial selection, saving hands over the whole batch |
| ResultsPage.SelectedValuationsAppend | pages/ResultsPage.tsx:64 | the saved valuations keep valuation order |
| ResultsPage.ChooseRegistrar | pages/ResultsPage.tsx:82-91 | GoDaddy iff the lower-cased name (null read as '') contains "godaddy"; else Namecheap iff it contains "namecheap"; else the search |
| ResultsPage.RegistrarUrl | pages/ResultsPage.tsx:82-92 | the link is an `https://` address ending with the domain |
| ResultsPage.ChooseIgnoresCase | pages/ResultsPage.tsx:83 | the registrar is matched without regard to case |
| ResultsPage.MissingRegistrarSearches | pages/ResultsPage.tsx:83-91 | a missing or empty registrar links to the search with the domain appended |
| ResultsPage.RegistrarUrlDeterminesChoice | pages/ResultsPage.tsx:82-92 | the link ends with the domain; two links for a domain agree iff the same registrar was chosen |
| ResultsPage.Settled | pages/ResultsPage.tsx:76-78 | a finished check is not loading and holds exactly one of the answer or 'Could not check availability.' |
| ResultsPage.SetStatus | pages/ResultsPage.tsx:73 | setting one domain's status leaves every other entry as it was |
| ResultsPage.CheckOnlyTouchesItsDomain | pages/ResultsPage.tsx:72-80 | a completed check adds only its domain's key, settled, and leaves the rest of the map |
| ResultsPage.ResultsView.constructor | pages/ResultsPage.tsx:14-22 | the batch (or none), the history flag, the initial selection and an empty status map |
| ResultsPage.ResultsView.ToggleSelection | pages/ResultsPage.tsx:45-52 | `Toggle`, or nothing when viewing from history |
| ResultsPage.ResultsView.SelectAllDomains | pages/ResultsPage.tsx:54-61 | `SelectAll`, or nothing when viewing from history |
| ResultsPage.ResultsView.SaveSelected | pages/ResultsPage.tsx:63-70 | the selected valuations are added to the portfolio, which is written, and the toast "N domain(s) saved to portfolio" with its dismiss timer is shown; when none is selected, portfolio, storage, toasts and timers are untouched |
| ResultsPage.ResultsView.BeginCheck | pages/ResultsPage.tsx:73 | the domain's status becomes loading |
| ResultsPage.ResultsView.EndCheck | pages/ResultsPage.tsx:74-79 | the domain's status becomes the settled outcome |
| PortfolioPage.ItemsToProcess | pages/PortfolioPage.tsx:73-75 | 'all' is the whole portfolio; 'selected' keeps exactly the selected items |
| PortfolioPage.SelectedItemsAppend | pages/PortfolioPage.tsx:75 | the selected items keep portfolio order |
| PortfolioPage.NeedsFetching | pages/PortfolioPage.tsx:83 | an item is re-appraised when its three- and six-month projections are both zero |
| PortfolioPage.BatchItemsNeedFetching | pages/PortfolioPage.tsx:83 | an item saved from a batch always needs re-appraising |
| PortfolioPage.Resolved | pages/PortfolioPage.tsx:82-91 | only a needed fetch can fail, with the service's failure; an item that needs no fetch is used as it is, keeping its name, value and projections |
| PortfolioPage.ResolveAllStep | pages/PortfolioPage.tsx:82-93 | one more item: the earlier failure, else its own failure, else its answer appended |
| PortfolioPage.ResolveAll | pages/PortfolioPage.tsx:82-93 | `Promise.all`: succeeds iff every item resolves, with the answers in item order |
| PortfolioPage.NothingToFetch | pages/PortfolioPage.tsx:82-93 | with nothing to fetch the answers are the items themselves |
| PortfolioPage.SomeUpsertStep | pages/PortfolioPage.tsx:84-90 | one more item upserts something iff the earlier ones did or it needs fetching and its fetch succeeds |
| PortfolioPage.UpsertFetched | pages/PortfolioPage.tsx:84-90 | the portfolio grows by at most one entry per item, and is untouched when no item needs a successful fetch |
| PortfolioPage.UpsertFetchedNothing | pages/PortfolioPage.tsx:84-90 | items that need no fetch leave the portfolio as it was |
| PortfolioPage.UpsertFetchedKeepsShape | pages/PortfolioPage.tsx:84-90 | refreshing saved items keeps names unique and adds no entry |
| PortfolioPage.CsvFields | pages/PortfolioPage.tsx:39-50 | a row has ten cells, as many as the header |
| PortfolioPage.CsvRows | pages/PortfolioPage.tsx:39-50 | one row per record, in order |
| PortfolioPage.TextCellsReadBack | pages/PortfolioPage.tsx:40-49 | the domain name and the four influencer cells are written between double quotes and read back as their fields |
| PortfolioPage.NumberCellsReadBack | pages/PortfolioPage.tsx:41-49 | the value, the three projections and the opportunity score are written as unquoted decimal numbers that read back as the fields |
| PortfolioPage.FieldsExclude | pages/PortfolioPage.tsx:39-50 | a character absent from the text cells, other than a digit, '-' or the quote, is absent from every cell |
| PortfolioPage.RowSplitsIntoFields | pages/PortfolioPage.tsx:39-50 | with comma-free text cells a row splits back into its ten cells |
| PortfolioPage.RowsExcludeNewline | pages/PortfolioPage.tsx:39-50 | rows of line-break-free text cells have no line break |
| PortfolioPage.HeaderExcludesNewline | pages/PortfolioPage.tsx:33-38 | the header line has no line break |
| PortfolioPage.CsvContent | pages/PortfolioPage.tsx:52-54 | the report starts with the CSV `data:` prefix followed by the header line and a newline, even with no rows |
| PortfolioPage.ReportLines | pages/PortfolioPage.tsx:52-54 | the report is the header line, then one line per record in input order |
| PortfolioPage.PortfolioView.constructor | pages/PortfolioPage.tsx:13 | nothing selected at first |
| PortfolioPage.PortfolioView.ToggleSelection | pages/PortfolioPage.tsx:24-30 | the selection becomes `Toggle` of the old one |
| PortfolioPage.PortfolioView.Delete | pages/PortfolioPage.tsx:18-22 | the domain is removed and the portfolio written, and 'Domain deleted' shown with its dismiss timer |
| PortfolioPage.PortfolioView.FetchAndCache | pages/PortfolioPage.tsx:83-91 | one item's callback: re-appraised iff it needs fetching, and upserted and written iff that answer succeeded; otherwise portfolio and storage are untouched |
| PortfolioPage.PortfolioView.AllAnswers | pages/PortfolioPage.tsx:93 | the loop over the answers computes exactly `ResolveAll` |
| PortfolioPage.PortfolioView.ResolveAndCache | pages/PortfolioPage.tsx:82-93 | every item's callback runs in item order, upserting each successful fetch, then `Promise.all` yields `ResolveAll`; storage holds the final list if anything was upserted and is untouched otherwise |
| PortfolioPage.PortfolioView.Download | pages/PortfolioPage.tsx:65-102 | an empty 'selected' download only shows its error and leaves portfolio and storage as they were; past it, fetched items are upserted and written, and an empty item list or a failure shows its error, otherwise the report is produced with no toast; each toast comes with its dismiss timer |
| PortfolioPage.PortfolioView.Compare | pages/PortfolioPage.tsx:104-133 | fewer than two selected shows the error and leaves portfolio and storage as they were; otherwise fetched items are upserted and written, and the resolved selected records are returned, or the failure toast with its timer shown |
| DetailedPortfolioItemPage.CountdownStep | pages/DetailedPortfolioItemPage.tsx:96 | one second down, never below zero |
| DetailedPortfolioItemPage.CountdownAfter | pages/DetailedPortfolioItemPage.tsx:18-118 | from 12 the countdown reads 12 - k after k ticks, then stays at 0 |
| DetailedPortfolioItemPage.IsCacheHit | pages/DetailedPortfolioItemPage.tsx:121-122 | a saved record is reused exactly when it exists and its three-month projection is positive |
| DetailedPortfolioItemPage.CacheHitRule | pages/DetailedPortfolioItemPage.tsx:121-125 | a record saved from a batch is never reused; one with a positive three-month projection always is |
| DetailedPortfolioItemPage.DetailsFor | pages/DetailedPortfolioItemPage.tsx:120-130 | details are obtained iff there is a hit or the service answers; a hit shows the saved name, value and projections; a failure is the service's own |
| DetailedPortfolioItemPage.RefetchStillMisses | pages/DetailedPortfolioItemPage.tsx:121-128 | after a fresh answer is cached, a non-positive three-month projection is still no hit, and an answer under another name leaves the requested domain as it was |
| DetailedPortfolioItemPage.PlannedCalls | pages/DetailedPortfolioItemPage.tsx:113-148 | in one run of `fetchAllData`, the detail call is made iff there is no hit; recommendations are asked only after details were obtained, for those details |
| DetailedPortfolioItemPage.DetailView.constructor | pages/DetailedPortfolioItemPage.tsx:54-60 | loading, countdown 12, no details, no recommendations |
| DetailedPortfolioItemPage.DetailView.Tick | pages/DetailedPortfolioItemPage.tsx:94-97 | one countdown step |
| DetailedPortfolioItemPage.DetailView.FetchAllData | pages/DetailedPortfolioItemPage.tsx:112-157 | no domain changes no field, portfolio or storage; otherwise the countdown restarts, the planned calls are made, a fresh appraisal is upserted and written, and details and recommendations are set from what succeeded; the availability map is never touched |
| DetailedPortfolioItemPage.DetailView.FetchDetails | pages/DetailedPortfolioItemPage.tsx:120-130 | the result is the saved record on a cache hit and the service's answer otherwise; only a successful fresh answer is upserted and written, and the shown details change only on success |
| DetailedPortfolioItemPage.DetailView.FetchRecs | pages/DetailedPortfolioItemPage.tsx:132-142 | the recommendations are asked for with the obtained domain and value; a failed call keeps the old list and the loading flag ends either way |
| DetailedPortfolioItemPage.DetailView.BeginRecCheck | pages/DetailedPortfolioItemPage.tsx:160 | the recommendation's status becomes loading |
| DetailedPortfolioItemPage.DetailView.EndRecCheck | pages/DetailedPortfolioItemPage.tsx:161-166 | the recommendation's status becomes the settled outcome |
| HistoryChartPage.ChartLabel | pages/HistoryChartPage.tsx:57-60 | the first word, a space, then at most a quote and two characters |
| HistoryChartPage.LabelOfMonthYear | pages/HistoryChartPage.tsx:58-60 | "Mon YYYY" becomes "Mon 'YY" |
| HistoryChartPage.LabelWithoutYear | pages/HistoryChartPage.tsx:58-60 | a month without a year becomes "Mon " |
| HistoryChartPage.ChartData | pages/HistoryChartPage.tsx:57-61 | one point per cached point with its value and label, in order; nothing without a series |
| HistoryChartPage.FetchedSeriesIsReused | pages/HistoryChartPage.tsx:28-38 | caching a fetched series on a saved domain makes the next visit reuse it; an unsaved domain caches nothing |
| HistoryChartPage.ChartView.constructor | pages/HistoryChartPage.tsx:16-18 | no data, loading, no error |
| HistoryChartPage.ChartView.FetchHistory | pages/HistoryChartPage.tsx:21-45 | no domain sets the error without fetching; a cached series is used without fetching; otherwise the answer is shown, cached and written, or the error set; storage is written only when an answer is cached |
| ComparePage.Field | pages/ComparePage.tsx:39 | a field read is `undefined` unless the container is an object with that field |
| ComparePage.Step | pages/ComparePage.tsx:39 | a falsy container gives `undefined`; a truthy one gives its field |
| ComparePage.UndefinedAbsorbs | pages/ComparePage.tsx:39 | once the walk reaches `undefined` it stays there |
| ComparePage.GetNestedValue | pages/ComparePage.tsx:39 | a falsy record gives `undefined` whatever the path |
| ComparePage.SingleSegment | pages/ComparePage.tsx:39 | a one-segment path reads the field directly, and a present 0 comes back as 0 |
| ComparePage.TwoSegments | pages/ComparePage.tsx:39 | a two-segment path reads the field of the field, and is `undefined` when the first field is missing or falsy |
| ComparePage.DisplayCell | pages/ComparePage.tsx:88-98 | 'N/A' exactly for `undefined`; else currency, value plus suffix, or the value |
| ComparePage.MetricReaches | pages/ComparePage.tsx:39-51 | every metric path reaches its field in a full record |
| ComparePage.MetricResolves | pages/ComparePage.tsx:39-51 | every metric path reaches its field in a full record, so no cell of a full record is 'N/A' |
| ComparePage.OpportunityCell | pages/ComparePage.tsx:50-95 | the opportunity score shows as "n / 10" |
| ComparePage.Table | pages/ComparePage.tsx:73-98 | nine rows, one column per record in input order, each cell the display choice |
| ComparePage.ShowsNothingToCompare | pages/ComparePage.tsx:19 | the empty screen shows exactly when there are no records, or the table would have no columns |
| ComparePage.TableHasNoGaps | pages/ComparePage.tsx:81-98 | a table of full records has no 'N/A' |
| MarketTrendsPage.Annotate | pages/MarketTrendsPage.tsx:45-52 | each suggestion is shown as available, with its registrar or null and no price |
| MarketTrendsPage.AnnotateAll | pages/MarketTrendsPage.tsx:45-52 | one annotated result per suggestion, in order |
| MarketTrendsPage.Discover | pages/MarketTrendsPage.tsx:39-58 | results iff the list is non-empty; an empty list gives the no-trends message; a missing list or a failure gives 'Failed to discover trending domains. Please try again.' |
| MarketTrendsPage.AnnotationKeepsLink | pages/MarketTrendsPage.tsx:49-68 | nulling an empty registrar does not change the link |
| MarketTrendsPage.UnnamedRegistrarSearches | pages/MarketTrendsPage.tsx:64-68 | a suggestion without a registrar links to the search |
| MarketTrendsPage.ToValuation | pages/MarketTrendsPage.tsx:72-76 | name and value carried over, the reason becomes the justification |
| MarketTrendsPage.SaveAddsSuggestion | pages/MarketTrendsPage.tsx:71-77 | after saving the domain is in the portfolio; a new one comes in at the suggested value, a saved one is left alone |
| MarketTrendsPage.TrendsView.constructor | pages/MarketTrendsPage.tsx:14-17 | no results, not loading, no error, zero seconds |
| MarketTrendsPage.TrendsView.StartDiscover | pages/MarketTrendsPage.tsx:35-38 | results and error cleared, counter reset, loading on |
| MarketTrendsPage.TrendsView.FinishDiscover | pages/MarketTrendsPage.tsx:39-61 | the results or the message from `Discover`; loading ends either way |
| MarketTrendsPage.TrendsView.Tick | pages/MarketTrendsPage.tsx:24-26 | while loading, one tick adds one second |
| MarketTrendsPage.TrendsView.SaveToPortfolio | pages/MarketTrendsPage.tsx:71-79 | a one-element `addValuations`, written, and the toast "<domain> saved to portfolio" with its dismiss timer |
| HistoryPage.Group | pages/HistoryPage.tsx:16-23 | a day's group holds exactly the entries of that day, in history order |
| HistoryPage.DayKeys | pages/HistoryPage.tsx:18-19 | every heading is the day of some entry |
| HistoryPage.EveryDayListed | pages/HistoryPage.tsx:16-23 | every entry's day has a heading |
| HistoryPage.DayKeysDistinct | pages/HistoryPage.tsx:18-19 | no heading appears twice |
| HistoryPage.InExactlyOneGroup | pages/HistoryPage.tsx:16-23 | each entry lies in exactly one group, its own day's |
| HistoryPage.UnlistedDayIsEmpty | pages/HistoryPage.tsx:18-21 | a day without a heading has no entries |
| HistoryPage.PushKeepsGrouping | pages/HistoryPage.tsx:18-22 | one push onto the entry's day, opening it first if new, keeps the grouping right |
| HistoryPage.GroupHistory | pages/HistoryPage.tsx:16-23 | the reduce yields the headings in order of first appearance, and for each exactly its day's entries in history order |
| HistoryPage.ShowsNoHistory | pages/HistoryPage.tsx:26 | the empty state shows exactly when the history is empty |
| HistoryPage.NoHistoryNoDays | pages/HistoryPage.tsx:26 | the empty state shows exactly when there are no days to list |
| HistoryPage.CountLabel | pages/HistoryPage.tsx:66 | the count, then " Domain", with an "s" iff the count is above one, and it ends with " Valued" |
| HistoryPage.CountLabelReadsBack | pages/HistoryPage.tsx:66 | the label's leading digits read back as the batch size |

## Left out

- Network calls to the AI service, prompt wording and `JSON.parse` are left out. Answers are parameters and parsing is a given function.
- Record shapes that `JSON.parse` casts without checking are taken to be well-typed records.
- Numbers are mathematical integers. Fractional values, `NaN` and floating-point rounding are not modelled.
- `Intl.NumberFormat` currency formatting is left out: a currency cell carries the raw value.
- `toLocaleDateString`/`toLocaleTimeString` are left out. The history page takes the day key as a function parameter.
- React rendering, hooks, effect timing and routing are left out. Navigation is shown as a method result (the records to compare, the report text).
- The `setInterval` and `setTimeout` timers are left out. Ticks and toast dismissal are explicit methods.
- `encodeURI`, the link click in the CSV download, and the line chart's geometry are left out.
- `handleInfoClick` and its modal on the detail page are left out (a UI wrapper around `getInfluencerExplanation`).
- The transient `downloadingType` and `isComparing` flags of the portfolio page are left out.
- Storage write errors are swallowed by the source: a failed write leaves the map as it was, and the in-memory state changes anyway.
- HistoryContext.HistoryStore.AddBatchToHistory: `Date.now()` is read twice, once for the id and once for the timestamp; both readings are parameters, and nothing relates them beyond what `IdReadsBack` states.
- PortfolioContext.PortfolioStore.AddValuations: the source calls `Date.now()` once per pushed item; the model stamps every item of one call with the same `now`.
- DetailedPortfolioItemPage.DetailView.FetchAllData: models one run of `fetchAllData`. The effect depends on `getValuation` and `addDetailedValuation` (pages/DetailedPortfolioItemPage.tsx:157), which the provider re-creates on every render (context/PortfolioContext.tsx:68, 95), so each upsert makes the effect run again: after a miss, the second run resets the countdown, finds the saved record and asks for recommendations again. A fresh answer whose three-month projection is not positive, or whose `domainName` differs from the route's, is a miss again (RefetchStillMisses), so the page re-appraises without end. HistoryChartPage has the same shape: `updateValuation` always builds a new list, so even for an unsaved domain, where nothing is cached, the provider renders again and the series is fetched again on every run; that page has no route. Effect re-runs are not modelled.
- PortfolioPage.PortfolioView.ResolveAndCache: `Promise.all` runs the fetches concurrently. The model issues them in item order and reports the first failure in item order, not the first in time. Upserts happen in item order, not completion order. Every upsert is stamped with the one `now` the method takes, where the source reads `Date.now()` afresh in each `addDetailedValuation` (context/PortfolioContext.tsx:69), so the model gives all items of one run the same `savedAt` and the same expiry.
- The detail and market-trend pages each carry a copy of `getRegistrarUrl` identical to the results page's one (pages/DetailedPortfolioItemPage.tsx:169-174, pages/MarketTrendsPage.tsx:64-68). All three are modelled by the single `ResultsPage.RegistrarUrl`.
- ResultsPage.ChooseRegistrar: `toLowerCase` is modelled for ASCII letters only.
- ComparePage.Step: built-in properties of strings and numbers (such as `length`) are not fields. Only the record fields a comparison receives are modelled.
- HistoryPage.GroupHistory: `Object.keys` lists integer-like keys first. The model keeps insertion order, which is what the page's long-form English date keys get.
- DetailedPortfolioItemPage.DetailView.FetchAllData: the catch branches around the availability check on the pages are unreachable, because `checkDomainAvailability` never throws. `EndCheck` and `EndRecCheck` still accept a failure outcome.
- The login page, settings, profile, about, monthly-report and edit-item pages are not part of this model, nor are navigation components and analytics.

## Where the code and its design description differ

In each case below the model follows the code.

- Upsert history: the design says an upsert keeps the cached chart series unless the new record brings its own. The code always writes the old item's `historicalData` (context/PortfolioContext.tsx:74-76), so a new record's series is never used.
- Expiry rule: the design describes expiry as "younger than the window". The code keeps `savedAt >= now - window`, so the boundary is inclusive, and it also drops items whose `savedAt` is missing or zero (context/PortfolioContext.tsx:30-31).
- History ids: the design treats history ids as unique. The code uses the decimal text of `Date.now()`, so two batches recorded in the same millisecond share an id (context/HistoryContext.tsx:43). `HistoryContext.IdsCollideIffSameMillisecond` states exactly when.
