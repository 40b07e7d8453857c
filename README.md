# Journal session bookkeeping, modelled in Dafny

This project models the session bookkeeping of a journaling app. That layer sits under the app's screens and its backend client:

- **Journal screen.** A draft text, a "next question" action and a "complete session" action. Completing extracts a daily summary, saves it, and caches the session on the device. If extraction or saving fails, it falls back to a local-only session.
- **Session cache.** Holds the sessions created on the device, newest first.
- **Repository.** Writes a completed session as three inserts: a session row, an entry row and a summary row. Fetching reads the user's recent sessions back with their summaries.
- **History screen.** Merges the fetched sessions with the cached ones by id.
- **Question engine and extractor.** In mock mode each applies local rules. Otherwise it uses the AI pipeline's answer.
- **Two persisted flags.** The settings provider keeps "mock AI enabled" and the onboarding provider keeps "needs onboarding". Each is decoded from, and written back to, the device key-value store.

Modules, one per source file (plus helpers):

| module | file | what it holds |
|---|---|---|
| `Wrappers` | wrappers.dfy | `Option` and `Result` |
| `Domain` | domain.dfy | `DailySummary`, `JournalSession`, `AIQuestion`, and `SignedIn`. An absent or empty user id counts as signed out. |
| `Api` | api.dfy | pipeline requests and responses. The pipeline itself is a `Gateway`: a total function from a request to a response or an error. |
| `Sequences` | sequences.dfy | `Distinct` (first-occurrence order), `FirstIndex` and `LastIndex`, with their lemmas |
| `Strings` | strings.dfy | ECMAScript `trim` over its white-space set, and the decimal rendering of a millisecond count |
| `Storage` | storage.dfy | the key-value store as a class over a `map`, and the string encoding of a flag |
| `Settings`, `Onboarding` | settings.dfy, onboarding.dfy | the two flag providers as classes |
| `QuestionEngine`, `Extractor` | question_engine.dfy, extractor.dfy | pure functions |
| `JournalStore` | journal_store.dfy | the session cache as a class over a `seq` |
| `JournalRepository` | journal_repository.dfy | the backend (`RowStore`), `SaveCompletedSession`, `BuildSummaryMap`, `FetchRecentSessions` |
| `History` | history.dfy | the `Map`-based merge (`Combine`), its reference definition `Merged`, and the `HistoryScreen` class |
| `Journal` | journal_screen.dfy | the `JournalScreen` class. Its handlers are specified by the transition functions `NextQuestionStep` and `Complete`. |

Modelling choices:

- **Backend.** The backend is an object with three tables, a log of every request made to it, and a fixed set of requests that fail (fault injection). A failing request is what the client rethrows.
- **Inputs.** These are parameters: the backend's new session id, every clock reading, the random fallback choice (`pick`), and the JSON codec (`Stringify`, `Parse`). `Parse` returns `None` where `JSON.parse` throws.
- **Stale closure.** A React handler reads the state values captured when it was created, so `Complete` is stated over the screen state at the start of the action.

The fallback session carries the `summary` state captured before the action, not the summary extracted during it (src/features/journal/JournalScreen.tsx:94-99). `StaleFallbackSummary` exhibits this.

## Model

| member | source | states |
|---|---|---|
| Strings.TrimStartSpec | src/features/journal/JournalScreen.tsx:38 | trimming the front removes exactly a maximal white-space prefix: the result is a suffix of the input, what was removed is all white space, and the result does not start with white space |
| Strings.TrimEndSpec | src/features/journal/JournalScreen.tsx:38 | trimming the end removes exactly a maximal white-space suffix |
| Strings.TrimEmptyIff | src/features/journal/JournalScreen.tsx:63 | `draftText.trim()` is empty exactly when the draft is all white space |
| Strings.TrimIsSlice | src/services/extractor.ts:15 | `trim` returns a contiguous slice of its input that neither starts nor ends with white space |
| Strings.DecimalInjective | src/features/journal/JournalScreen.tsx:101 | different millisecond counts render to different decimal strings |
| Storage.Lookup | src/state/settings.tsx:20 | `getItem` gives the stored string, or null exactly when the key is missing |
| Storage.KeyValueStore.GetItem | src/state/settings.tsx:20 | reading a key gives its stored value, or nothing exactly when it is missing |
| Storage.KeyValueStore.SetItem | src/state/settings.tsx:43 | writing a key replaces its value and leaves every other key as it was |
| Storage.DecodeFlag | src/state/settings.tsx:23-27 | a missing value decodes to true, a stored "true" to true, and any other string to false |
| Storage.EncodeFlag | src/state/settings.tsx:43 | `String(flag)` is "true" exactly when the flag holds, and "false" otherwise |
| Storage.FlagRoundTrip | src/state/settings.tsx:27-43 | a flag written under a key decodes back to the same flag, whatever else the store holds |
| Settings.SettingsProvider.constructor | src/state/settings.tsx:15-16 | mock mode starts on and the provider starts loading |
| Settings.SettingsProvider.Load | src/state/settings.tsx:18-38 | after the read the flag is the decoded stored value (missing means true) or, if the read rejects, unchanged; `loading` ends false either way |
| Settings.SettingsProvider.ToggleMockAi | src/state/settings.tsx:40-44 | the flag is negated and `String` of the new flag is written under "mock_ai_enabled" |
| Settings.ReloadAfterToggle | src/state/settings.tsx:40-44 | a provider reloaded from the store after a toggle holds the negated flag |
| Onboarding.OnboardingProvider.constructor | src/state/onboarding.tsx:15-16 | onboarding starts needed and the provider starts loading |
| Onboarding.OnboardingProvider.Load | src/state/onboarding.tsx:18-39 | after the read the flag is the decoded stored value (missing means true) or, if the read rejects, unchanged; `loading` ends false either way |
| Onboarding.OnboardingProvider.CompleteOnboarding | src/state/onboarding.tsx:41-44 | the flag becomes false and "false" is written under "needs_onboarding", with nothing else in the store changed |
| Onboarding.CompleteTwice | src/state/onboarding.tsx:41-44 | completing twice leaves the same provider state and store as completing once |
| Onboarding.CompletedSurvivesReload | src/state/onboarding.tsx:28-43 | after completion a re-read decodes to false |
| QuestionEngine.FirstUnasked | src/services/questionEngine.ts:32-34 | `find` stops at the first question whose text has not been asked; every question before it has been |
| QuestionEngine.MockNextQuestion | src/services/questionEngine.ts:31-36 | the mock question is always one of the three fallback questions |
| QuestionEngine.MockPicksFirstUnasked | src/services/questionEngine.ts:32-35 | the mock question is the first fallback question, in list order, that has not been asked; once all have been, it is the first one |
| QuestionEngine.MockIgnoresDraft | src/services/questionEngine.ts:31-36 | in mock mode the result does not depend on the draft, the pipeline or the random pick |
| QuestionEngine.MockAllAsked | src/services/questionEngine.ts:35 | once all three texts have been asked, mock mode returns "What felt most meaningful today?" |
| QuestionEngine.MockAfterPrefix | src/services/questionEngine.ts:32-34 | with the first k < 3 fallback questions asked, mock mode returns the next one |
| QuestionEngine.MockSequence | src/services/questionEngine.ts:32-35 | starting from no questions and appending each answer, mock mode asks meaning, energy, wins, then meaning forever |
| QuestionEngine.LastQuestion | src/services/questionEngine.ts:42 | the last asked question, or null exactly when none has been asked |
| QuestionEngine.NextQuestionRequest | src/services/questionEngine.ts:38-44 | the request has mode next_question, the draft, the asked list and its last element |
| QuestionEngine.GetNextQuestion | src/services/questionEngine.ts:20-50 | mock mode returns the mock question. Otherwise a pipeline error is rethrown, and the pipeline's question is returned, or the fallback question at the random pick when it gave none. |
| QuestionEngine.ValidateQuestionAnswered | src/services/questionEngine.ts:52-79 | mock mode answers exactly when the trimmed draft is longer than 20 characters, with no evidence. Otherwise a pipeline error is rethrown, and the pipeline's validator is returned, or "not answered" with no evidence when it gave none. |
| Extractor.BeforeFirstDot | src/services/extractor.ts:17 | `split(".")[0]` is the longest prefix without a "." |
| Extractor.Slice | src/services/extractor.ts:17 | `slice(0, n)` is the prefix of length n, or the whole string when it is shorter |
| Extractor.MockHeadline | src/services/extractor.ts:14-20 | the mock headline is non-empty, at most 80 characters and free of ".". It is "Today" when the trimmed text is empty or starts with "."; otherwise it is the trimmed text up to its first ".", capped at 80. |
| Extractor.BlankDraftHeadline | src/services/extractor.ts:15-18 | a blank draft gets the headline "Today" |
| Extractor.CompleteSessionRequest | src/services/extractor.ts:28-32 | the request has mode complete_session and carries the final text |
| Extractor.ExtractSummary | src/services/extractor.ts:4-41 | mock mode returns the mock headline with the two fixed bullets in order. Otherwise a pipeline error is rethrown, and the pipeline's daily summary is returned, or {"Summary", []} when it gave none. |
| JournalStore.JournalProvider.constructor | src/state/journal.tsx:13 | the cache starts empty |
| JournalStore.JournalProvider.AddSession | src/state/journal.tsx:15-17 | the new session goes first and the earlier sessions follow in their old order |
| JournalStore.JournalProvider.ClearSessions | src/state/journal.tsx:19-21 | the cache is empty afterwards, whatever it held |
| JournalStore.PrependKeepsDuplicates | src/state/journal.tsx:16 | prepending grows the list by one, puts the session at index 0, keeps the rest, and adds a second copy of an id already present |
| JournalRepository.OwnedBy | src/data/journalRepository.ts:71 | `.eq("user_id", …)` keeps exactly the user's rows |
| JournalRepository.UserSessions | src/data/journalRepository.ts:68-73 | the query returns the first `limit` rows of the user, or all of them when there are fewer |
| JournalRepository.RowIds | src/data/journalRepository.ts:83 | the ids of the fetched rows, in order |
| JournalRepository.SummaryRowsFor | src/data/journalRepository.ts:84-87 | `.in("session_id", ids)` keeps exactly the summary rows of those sessions |
| JournalRepository.LastRowFor | src/data/journalRepository.ts:93-103 | a session's last summary row: present exactly when the session has one, and no later row belongs to that session |
| JournalRepository.Decode | src/data/journalRepository.ts:95-102 | a row that parses contributes its parsed summary; one that does not contributes {"Summary unavailable", []} |
| JournalRepository.ToSessions | src/data/journalRepository.ts:105-114 | one session per row, in order, with the row's fields; its summary is the mapped one, and null exactly when the map has none |
| JournalRepository.RowStore.InsertSession | src/data/journalRepository.ts:17-28 | an insert is logged and appends the row exactly when it does not fail |
| JournalRepository.RowStore.InsertEntry | src/data/journalRepository.ts:34-39 | an insert is logged and appends the row exactly when it does not fail |
| JournalRepository.RowStore.InsertSummary | src/data/journalRepository.ts:45-49 | an insert is logged and appends the row exactly when it does not fail |
| JournalRepository.RowStore.SelectSessions | src/data/journalRepository.ts:68-73 | the query is logged and fails, or returns the user's first rows |
| JournalRepository.RowStore.SelectSummaries | src/data/journalRepository.ts:84-87 | the query is logged and fails, or returns the rows of the given sessions |
| JournalRepository.SavedSession | src/data/journalRepository.ts:55-64 | the returned session has the new id and the user; it starts and ends at one timestamp; it is completed, text, titled with the headline, and carries exactly the input summary |
| JournalRepository.InsertOrder | src/data/journalRepository.ts:30-53 | inserts are attempted as sessions, entries, summaries; every attempt before the last succeeded, and the last fails exactly when the save fails |
| JournalRepository.SaveCompletedSession | src/data/journalRepository.ts:10-65 | the session row, its entry (draft text, source user) and its summary row go in under the new id and one timestamp; the first failing insert is rethrown; later inserts are not attempted and earlier ones stay. The tables afterwards are `AfterSave` of the tables before. |
| JournalRepository.BuildSummaryMap | src/data/journalRepository.ts:93-103 | the loop maps each session to the decoded content of its last summary row |
| JournalRepository.FetchRecentSessions | src/data/journalRepository.ts:67-115 | the result and the queries made are those of `FetchOutcome` and `FetchRequests` for the backend's current tables |
| JournalRepository.FilterKeepsLastRow | src/data/journalRepository.ts:84-87 | selecting the summary rows of some sessions keeps each one's last row |
| JournalRepository.FetchedSession | src/data/journalRepository.ts:105-114 | when neither query fails the fetch succeeds with one session per row, in order; each is its row with the decoded last summary row, or null when it has none |
| JournalRepository.FetchErrorsAndEmpty | src/data/journalRepository.ts:75-91 | either query's error is thrown; with no session rows the fetch returns [] without querying summaries |
| JournalRepository.SavedSessionReadBack | src/data/journalRepository.ts:10-114 | after a save whose inserts all succeeded, the new row is among the user's rows, and (with a codec that parses back what it writes) the session a fetch builds from it and its last summary row equals the session the save returned |
| JournalRepository.SavedSummaryReadBack | src/data/journalRepository.ts:48-96 | with a codec that parses back what it writes, a saved summary is what the next fetch reads for its session |
| History.Winner | src/features/history/HistoryScreen.tsx:39-44 | the session shown for an id carries that id |
| History.Merged | src/features/history/HistoryScreen.tsx:37-46 | the reference merge has one entry per distinct id |
| History.SetRemote | src/features/history/HistoryScreen.tsx:39 | after setting every remote session, the `Map` keys are the distinct remote ids in first-insertion order, and each value is the last remote session with that id |
| History.AddLocal | src/features/history/HistoryScreen.tsx:40-44 | each local session is added only when its id is not in the `Map` yet; keys grow in insertion order |
| History.ValuesInOrder | src/features/history/HistoryScreen.tsx:45 | `Array.from(map.values())` lists the values in key order |
| History.Combine | src/features/history/HistoryScreen.tsx:37-46 | the `Map`-based merge equals the reference merge `Merged` |
| History.MergedIds | src/features/history/HistoryScreen.tsx:38-45 | the merged ids are the distinct ids of remote then local, in order of first appearance |
| History.MergedRemoteWins | src/features/history/HistoryScreen.tsx:39-43 | every remote id is present; an id some remote session has shows the last such remote session, even when a local one has it too |
| History.MergedLocalFirst | src/features/history/HistoryScreen.tsx:40-44 | every local id is present; an id no remote session has shows the first local session with it |
| History.MergedUnique | src/features/history/HistoryScreen.tsx:38-45 | no two entries share an id, and there are as many entries as distinct ids across both lists |
| History.MergedOrder | src/features/history/HistoryScreen.tsx:39-45 | entries are in first-insertion order of their ids, and every remote-derived entry precedes every local-only one |
| History.MergedEmpty | src/features/history/HistoryScreen.tsx:37-46 | empty remote and local lists merge to the empty list |
| History.RepeatedRemoteId | src/features/history/HistoryScreen.tsx:39 | a remote id repeated later keeps the later content at the first occurrence's position |
| History.HistoryScreen.constructor | src/features/history/HistoryScreen.tsx:13-15 | no remote sessions, not loading, no error |
| History.HistoryScreen.LoadSessions | src/features/history/HistoryScreen.tsx:17-31 | signed out, nothing changes and nothing is queried. Signed in, a successful fetch replaces `remoteSessions` and clears the error; a failed one keeps them and sets the error. `loading` ends false. |
| History.HistoryScreen.Combined | src/features/history/HistoryScreen.tsx:37-46 | the displayed list is the merge of the fetched sessions with the cached ones |
| Journal.FallbackSession | src/features/journal/JournalScreen.tsx:94-109 | the local-only session has id "local-" plus the milliseconds, the user's id, and both clock readings; it is completed and text; it carries the summary held at the start, or {"Session", []}, and is titled with that headline |
| Journal.FallbackIdsDistinct | src/features/journal/JournalScreen.tsx:101 | local ids minted at different milliseconds differ, and none equals an id without the "local-" prefix |
| Journal.NextQuestionStep | src/features/journal/JournalScreen.tsx:37-60 | a blank draft changes nothing. Otherwise a returned question is shown and exactly its text is appended to the asked list; an error leaves both. The screen ends not loading, and the draft, summary, completion flag and route are untouched. |
| Journal.Complete | src/features/journal/JournalScreen.tsx:62-118 | a blank draft changes nothing. Signed out, the screen goes to "/onboarding" and nothing else changes. Otherwise an extracted summary is shown; on save success the saved session is cached and the draft, question and asked list are cleared; on any failure the fallback session is cached and they are kept. The screen ends not completing. |
| Journal.CompletionCachesOneSession | src/features/journal/JournalScreen.tsx:82-110 | a signed-in completion of a non-blank draft caches exactly one completed text session of that user, titled by its summary's headline; it has the backend's id exactly when extraction and every insert succeeded (else a "local-" id), and only then is the draft cleared |
| Journal.StaleFallbackSummary | src/features/journal/JournalScreen.tsx:94-99 | a summary extracted during the action is shown but not put in the fallback session, which gets the placeholder |
| Journal.JournalScreen.constructor | src/features/journal/JournalScreen.tsx:20-25 | empty draft, no question, nothing asked, no summary, idle |
| Journal.JournalScreen.SetDraftText | src/features/journal/JournalScreen.tsx:136 | typing replaces the draft and nothing else |
| Journal.JournalScreen.HandleNextQuestion | src/features/journal/JournalScreen.tsx:37-60 | the screen moves as `NextQuestionStep` says |
| Journal.JournalScreen.HandleComplete | src/features/journal/JournalScreen.tsx:62-118 | the screen moves as `Complete` says, the cached session (if any) is prepended to the cache, and the backend receives the save's inserts only when a summary was extracted. The tables then become `AfterSave` of the tables before, for the draft at the start of the action; otherwise the backend is unchanged. |
| Journal.JournalScreen.Settle | src/features/journal/JournalScreen.tsx:73-117 | once a summary was asked for: on extraction failure the fallback is cached and the backend is untouched; on success the summary is shown and saved, and then either the saved session is cached and the draft cleared, or the fallback is cached; completion ends. After an extraction the request log grows by the attempted inserts, and the tables become `AfterSave` of the tables before, for the draft as it was. |

## Left out

- Rendering, styles, alerts and the other screens (home, profile, onboarding, session detail, add-journal). Of navigation, only the replace to "/onboarding" is recorded.
- Authentication and the backend client set-up (src/state/auth.tsx, src/lib/supabase/client.ts). The signed-in user's id is an input.
- The AI pipeline call (src/services/aiGateway.ts) and its stub back end. The pipeline is the `Gateway` parameter. The empty `meDb` snapshot the screens send is not carried.
- Server-side `.order("started_at", { ascending: false })`. The fetch returns the user's rows in table order, and `.limit` takes the first `limit` of them.
- JSON.stringify and JSON.parse are parameters. A summary JSON that parses to something other than a summary is not distinguished from one that fails to parse.
- Clocks and randomness are inputs: `Date.now()`, the ISO timestamps, and `Math.random()`. The two `new Date()` readings of the fallback session are separate inputs.
- Async timing and races:
  - the `isMounted` guards;
  - the re-render that shows `completing` or `loadingQuestion` as true while an action is in flight. Each method sets the flag during the action, but its contract states only the final state.
  - the double-tap race while `completing` is set;
  - the ordering of AsyncStorage writes.
- AsyncStorage `setItem` rejection is not modelled. A `getItem` rejection is the `readFails` input of `Load`.
- `useEffect` triggers (reloading history when the user changes, pull to refresh). `LoadSessions` is the action they call.
- JavaScript string lengths count UTF-16 code units. The model counts characters, so `slice(0, 80)` and the 20-character threshold agree with the source only for text without surrogate pairs.
- The ids of entry and summary rows are not kept.
- `Date.now()` is a JavaScript number. The model takes the millisecond count as a `nat`, so a clock before 1970, or a fractional or non-finite reading, is not modelled.
- A `null` `data` from the sessions query is treated like an empty list, because the table holds no null rows in the model.
- The `?? "local"` user-id default in the fallback session cannot apply after the sign-in check, so it is not modelled.
- Journal.JournalScreen.HandleComplete: the contract does not state that `completing` is true while extraction and saving run. Only the final `false` is stated.
