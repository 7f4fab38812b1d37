# medical_bot in Dafny

A Dafny model of the medical chat assistant "medical_bot": the FastAPI back end that walks
a patient through a fixed interview (symptoms, previous history, medications, additional
symptoms, an urgency assessment, follow-up questions, then a diagnosis and a doctor's case
summary), and the React front end around it — the chat page that drives the interview,
formats the case summary card and keeps the consultation history, the two-page account forms
(registration wizard and login), and the shared form-validation hook.

The back end (`backend/main.py`) is modelled as functions over its state records: the user
store written by `update_user_data`, the step routing of `determine_next_step` and
`process_step`, the answer validation of `validate_response`, the interview handlers with the
language-model outputs as parameters, the urgent-advice cards, the forced diagnosis and the
history store behind `save_chat_history`.  The chat page (`frontend/src/ChatPage.jsx`) is a
class `ChatPage.ChatController` whose methods are the page's handlers and effects, proved
against the pure transition functions of `Conversation`; the summary formatter, the
duplicate-summary filter and the message renderer are functions with their promises proved as
lemmas.  The registration page, the login page and the validation hook are classes whose
fields are the components' state.

Language-model calls, HTTP, local storage, timers and the clock are parameters of the model
or left out; the section "Left out" lists them.

Modules, one per file: `Wrappers`, `Strings` (the string built-ins of both runtimes),
`ValidationPatterns` (the exported regular expressions of `ValidationUtils.jsx`),
`JsNumbers` (isNaN on a string and parseInt), `FormChecks`, `RegisterForm`, `LoginForm`,
`ValidationHook`, `SummaryFormatter`, `SummaryProperties`, `HistoryDedup`, `ChatView`,
`DiagnosisCard`, `Conversation`, `ConversationProperties`, `ConversationRun`, `ChatPage`,
`UserStore`, `Routing`, `ResponseValidation`, `Handlers`, `UrgentAdvice`, `ForceDiagnosis`,
`HistoryStore`.

## Model

| member | source | states |
|---|---|---|
| `Strings.TrimIsSlice` | frontend/src/ChatPage.jsx:644 | `trim()`/`strip()` keeps one contiguous piece of the string |
| `Strings.TrimDropsBlank` | frontend/src/ChatPage.jsx:650 | what trimming removes at either end is white space of that runtime |
| `Strings.TrimEmptyIffBlank` | frontend/src/ChatPage.jsx:644 | a line trims to `''` exactly when it is all white space (the filter of blank lines) |
| `Strings.TrimOfTrimmed` | backend/main.py:463 | trimming a string with no white space at either end changes nothing |
| `Strings.Lower` | frontend/src/ChatPage.jsx:659 | `toLowerCase()`/`lower()` keeps the length and maps every character (ASCII letters only) |
| `Strings.Upper` | frontend/src/ChatPage.jsx:683 | `toUpperCase()` keeps the length and maps every character |
| `Strings.ContainsAnyMeans` | frontend/src/ChatPage.jsx:240-242 | `phrases.some(p => s.includes(p))` holds exactly when some phrase occurs |
| `Strings.FirstIndexFinds` | backend/main.py:472 | the search finds the leftmost occurrence and reports none only when there is none |
| `Strings.SplitPartsLackSep` | backend/main.py:472 | no part of `split(sep)` holds the separator |
| `Strings.JoinSplit` | frontend/src/ChatPage.jsx:1027 | splitting and joining back with the same separator gives the original string |
| `Strings.ReplaceAllIsSplitJoin` | backend/main.py:1669 | replacing every occurrence (Python `replace`, JS `replace` with a global literal) equals split-then-join |
| `Strings.ReplaceAllWithout` | backend/main.py:1669 | with no occurrence, replacing changes nothing |
| `Strings.RemoveAllRemovesChar` | frontend/src/ChatPage.jsx:670 | after removing every occurrence of a character none remains |
| `Strings.NatToString` | frontend/src/ChatPage.jsx:464 | `String(n)`: a non-empty run of decimal digits without a leading zero |
| `Strings.DigitsValueOfNatToString` | frontend/src/ChatPage.jsx:464 | reading a decimal spelling back gives the number |
| `SummaryFormatter.HashTitleAt` | frontend/src/ChatPage.jsx:638 | a match of `/##?\s*Medical Case Summary\s*##?/i` at the front is non-empty and starts with `#` |
| `SummaryFormatter.StarTitleAt` | frontend/src/ChatPage.jsx:639 | a match of `/\*\*\s*Medical Case Summary\s*\*\*/i` at the front is non-empty and starts with `*` |
| `SummaryFormatter.StripHashTitlesIdle` | frontend/src/ChatPage.jsx:638 | text without a `#` passes the first title replacement unchanged |
| `SummaryFormatter.StripStarTitlesIdle` | frontend/src/ChatPage.jsx:639 | text without a `*` passes the second title replacement unchanged |
| `SummaryFormatter.HashTitleSpansNextMarker` | frontend/src/ChatPage.jsx:638 | on "## Medical Case Summary", a blank line and "##", the greedy pattern also takes the next header's marker |
| `SummaryFormatter.HashTitleSwallowsNextMarker` | frontend/src/ChatPage.jsx:638 | so stripping the title also removes the marker of the header that follows it |
| `SummaryFormatter.NonBlankLinesSound` | frontend/src/ChatPage.jsx:644 | every kept line is a line of the text that is not all white space |
| `SummaryFormatter.NonBlankLinesComplete` | frontend/src/ChatPage.jsx:644 | every line that is not all white space is kept |
| `SummaryFormatter.LowerSections` | frontend/src/ChatPage.jsx:658-661 | the section names compared in lower case, one for one |
| `SummaryFormatter.NextHeaderFinds` | frontend/src/ChatPage.jsx:690 | the look-ahead stops at the first header line and skips none |
| `SummaryFormatter.NextHeaderStep` | frontend/src/ChatPage.jsx:698-700 | the look-ahead moves past a non-header line and stops on a header |
| `SummaryFormatter.GatherDiagnosisText` | frontend/src/ChatPage.jsx:689-692 | the first look-ahead loop gathers the trimmed lines up to the next header, each followed by a space |
| `SummaryFormatter.SkipSectionBody` | frontend/src/ChatPage.jsx:698-700 | the second look-ahead loop leaves `i` on the last line before the next header |
| `SummaryFormatter.AppendListItem` | frontend/src/ChatPage.jsx:706-714 | a list item adds the opener only when the output holds none, then the item, then the closer when the run ends |
| `SummaryFormatter.FormatHeaderLine` | frontend/src/ChatPage.jsx:663-703 | the header branch closes the open section, skips the title, and opens the named section |
| `SummaryFormatter.StartSection` | frontend/src/ChatPage.jsx:680-703 | opening a section adds its upper-cased heading; a diagnosis section folds its body |
| `SummaryFormatter.FormatBodyLine` | frontend/src/ChatPage.jsx:704-732 | the bullet, implicit-list and paragraph branches of the loop; the card only grows, and a plain line before any section header adds nothing |
| `SummaryFormatter.FormatLines` | frontend/src/ChatPage.jsx:649-733 | the loop over the non-blank lines computes the state of the line-by-line reference run |
| `SummaryFormatter.Format` | frontend/src/ChatPage.jsx:615-742 | formatDoctorSummary as a reference function: text with `<div` or `<h` passes unchanged, any other text becomes the titled card; FormatOpensCard, FormatOutputIsMarked, FormatIdempotent, FormatTitleOnce and FormatOneListOpener state its properties |
| `SummaryFormatter.FormatDoctorSummary` | frontend/src/ChatPage.jsx:615-742 | the method's output is the reference formatter's output |
| `SummaryProperties.StepPrefix` | frontend/src/ChatPage.jsx:649-733 | one loop iteration only appends to the HTML built so far |
| `SummaryProperties.RunPrefix` | frontend/src/ChatPage.jsx:649-733 | the whole loop only appends |
| `SummaryProperties.CardPrefix` | frontend/src/ChatPage.jsx:733-741 | the card starts with its opening and ends with the closing tag |
| `SummaryProperties.FormatOpensCard` | frontend/src/ChatPage.jsx:633-635 | every text without markup is formatted into a card opening with the single title |
| `SummaryProperties.FormatOutputIsMarked` | frontend/src/ChatPage.jsx:616-619 | every output holds `<div` or `<h`, so the formatter passes it through |
| `SummaryProperties.FormatIdempotent` | frontend/src/ChatPage.jsx:615-742 | formatting twice is formatting once |
| `SummaryProperties.GatheredIsJoin` | frontend/src/ChatPage.jsx:689-692 | the gathered text is the trimmed lines joined by single spaces, plus a space |
| `SummaryProperties.GatheredNoTag` | frontend/src/ChatPage.jsx:689-695 | text gathered from lines without `<h3` holds none |
| `SummaryProperties.RunPiece` | frontend/src/ChatPage.jsx:649-733 | the loop appends only pieces that cannot form a `<h3` |
| `SummaryProperties.FormatTitleOnce` | frontend/src/ChatPage.jsx:634-639 | the card carries its title heading once: no `<h3` follows it |
| `SummaryProperties.RunOpeners` | frontend/src/ChatPage.jsx:706-708 | the count of emitted list openers is right after the loop |
| `SummaryProperties.FormatOneListOpener` | frontend/src/ChatPage.jsx:706-708 | one call emits at most one list opener |
| `SummaryProperties.ListItemClosesRun` | frontend/src/ChatPage.jsx:712-714 | a list item closes the list exactly when it is the last of its run |
| `SummaryProperties.DiagnosisSectionFoldsBody` | frontend/src/ChatPage.jsx:687-703 | a diagnosis section folds the lines up to the next header into one bold paragraph and resumes at that header |
| `HistoryDedup.InsertPerm` | frontend/src/ChatPage.jsx:1131-1133 | one insertion step of the sort adds exactly the inserted entry |
| `HistoryDedup.SortMembers` | frontend/src/ChatPage.jsx:1131-1133 | the sort keeps exactly the entries of its input |
| `HistoryDedup.InsertSorted` | frontend/src/ChatPage.jsx:1131-1133 | a stable insertion into a sorted list keeps it sorted |
| `HistoryDedup.SortSortsAndPermutes` | frontend/src/ChatPage.jsx:1131-1133 | the comparator sort orders by time and is a permutation |
| `HistoryDedup.SortOfSorted` | frontend/src/ChatPage.jsx:1131-1133 | sorting a list already in order changes nothing (the sort is stable) |
| `HistoryDedup.IndexOfId` | frontend/src/ChatPage.jsx:1139 | the Map's position for an id holds the entry with that id |
| `HistoryDedup.RemoveAtKeeps` | frontend/src/ChatPage.jsx:1159 | deleting one Map entry keeps the order, the distinct ids and the spacing of summaries |
| `HistoryDedup.RemoveAtMembers` | frontend/src/ChatPage.jsx:1159 | deleting one entry removes that entry and nothing else |
| `HistoryDedup.FirstClose` | frontend/src/ChatPage.jsx:1148-1154 | the first stored summary less than five minutes from the entry |
| `HistoryDedup.ScanOneClose` | frontend/src/ChatPage.jsx:1148-1166 | with one summary in the window, the inner forEach deletes it when the new one is preferred, and marks the new one a duplicate otherwise |
| `HistoryDedup.AtMostOneClose` | frontend/src/ChatPage.jsx:1131-1172 | on sorted, spaced input at most one stored summary is in the window of a later entry |
| `HistoryDedup.ProcessCases` | frontend/src/ChatPage.jsx:1136-1172 | a regular entry, or a summary with none in its window, is added; a preferred summary replaces the one in its window; any other is dropped |
| `HistoryDedup.GoodStep` | frontend/src/ChatPage.jsx:1136-1172 | each entry keeps the map sorted, spaced and free of repeated ids |
| `HistoryDedup.FoldFacts` | frontend/src/ChatPage.jsx:1136-1174 | the forEach leaves a sorted, spaced list that keeps every regular entry and adds none |
| `HistoryDedup.Dedup` | frontend/src/ChatPage.jsx:1126-1175 | filterDuplicateSummaries as a reference function; DedupFacts, DedupIdempotent, DedupPair and DedupPairOrder state its properties |
| `HistoryDedup.DedupFacts` | frontend/src/ChatPage.jsx:1126-1175 | the filtered list is in ascending time order, its summaries are at least five minutes apart, every regular entry is kept and nothing is added |
| `HistoryDedup.FoldIdentity` | frontend/src/ChatPage.jsx:1136-1174 | a sorted, spaced list with distinct ids passes the forEach unchanged |
| `HistoryDedup.DedupIdempotent` | frontend/src/ChatPage.jsx:1126-1175 | filtering the filtered list changes nothing |
| `HistoryDedup.DedupPair` | frontend/src/ChatPage.jsx:1154-1163 | of two summaries under five minutes apart one survives: the "Doctor Summary", the later of two equal titles, the earlier of two other titles |
| `HistoryDedup.DedupPairOrder` | frontend/src/ChatPage.jsx:1131-1133 | the result does not depend on the order two summaries arrive in |
| `HistoryDedup.ListedOnlyMembers` | frontend/src/ChatPage.jsx:1101-1107 | the pre-filter keeps exactly the summaries and the entries titled "Doctor Summary" or "Medical Recommendation" |
| `HistoryDedup.FetchedHistoryFacts` | frontend/src/ChatPage.jsx:1099-1117 | the fetched history is newest first, holds only listed entries and keeps every listed entry that is not a summary |
| `HistoryDedup.FilterDuplicateSummaries` | frontend/src/ChatPage.jsx:1126-1175 | the two nested forEach loops compute the reference filter |
| `HistoryDedup.ScanSessionMap` | frontend/src/ChatPage.jsx:1144-1171 | the inner forEach for a summary and the conditional set give one step of the reference filter |
| `ChatView.RecommendationsAfterAppend` | frontend/src/ChatPage.jsx:959-969 | adding a message never takes the recommendation stage back, and reaches it exactly when the message carries a marker |
| `ChatView.DiagnosisCardRecommends` | frontend/src/ChatPage.jsx:966 | the back end's diagnosis card carries both headers, so showing it reaches the recommendations |
| `ChatView.BubbleOf` | frontend/src/ChatPage.jsx:972-997 | the user bubble is chosen exactly for user messages; no invalid or partial styling in the first three messages; diagnosis styling only without HTML |
| `ChatView.IsDiagnosisMeans` | frontend/src/ChatPage.jsx:992-994 | the second diagnosis test adds nothing to the first |
| `ChatView.ContainsHtmlMeans` | frontend/src/ChatPage.jsx:986-989 | the first HTML test is covered by the second |
| `ChatView.CardsAreHtml` | frontend/src/ChatPage.jsx:1000-1060 | the back end's diagnosis and urgent cards are shown as HTML, never split into sections |
| `ChatView.AutoContinueShowsButton` | frontend/src/ChatPage.jsx:981-983 | an assistant message with one of the first two continuation phrases also gets the continue button |
| `ChatView.ThanksShowsNoButton` | frontend/src/ChatPage.jsx:233-238 | the third auto-continue phrase continues without the button |
| `ChatView.StepLabel` | frontend/src/ChatPage.jsx:497-518 | a completed conversation is labelled "Consultation Complete" whatever the step |
| `ChatView.StageOf` | frontend/src/ChatPage.jsx:1353-1394 | the number of progress entries a step's list completes, at most the six entries |
| `ChatView.ProgressKeysDistinct` | frontend/src/ChatPage.jsx:1341-1348 | the six progress keys are distinct |
| `ChatView.ProgressIsOrdered` | frontend/src/ChatPage.jsx:1353-1395 | by the step alone, a progress entry is done only when every earlier one is |
| `ChatView.FinalStepsCompleteProgress` | frontend/src/ChatPage.jsx:1387-1390 | the final steps complete every progress entry |
| `ChatView.RecommendationsEntry` | frontend/src/ChatPage.jsx:1388-1410 | "Recommendations" is done exactly when the step is final or the conversation is complete |
| `ChatView.ChatTitle` | frontend/src/ChatPage.jsx:401-403 | the saved title is the message up to 20 characters, else its first 20 characters and "..." |
| `ChatView.ChatTitleIdempotent` | frontend/src/ChatPage.jsx:401-403 | a title is its own title |
| `Conversation.Landed` | frontend/src/ChatPage.jsx:317-347 | the state a catch block starts from; its meaning is proved by ConversationProperties.LandedKeeps |
| `Conversation.Submitted` | frontend/src/ChatPage.jsx:271-394 | handleSubmit as a transition; its transcript, count, completion, requests and timers are proved by SubmitTranscript, SubmitCounts, SubmitCompletes, SubmitRequests and SubmitTimers |
| `Conversation.Continued` | frontend/src/ChatPage.jsx:745-823 | handleContinuation as a transition; ContinueTranscript, ContinueFlags and ContinueRequests state its effect |
| `Conversation.Diagnosed` | frontend/src/ChatPage.jsx:884-956 | requestDiagnosis as a transition; DiagnosisTranscript, DiagnosisFlags and DiagnosisRequests state its effect |
| `Conversation.Summarized` | frontend/src/ChatPage.jsx:521-571 | generateCaseSummary as a transition; SummaryTranscript, SummaryFlags and SavedSummaryIsFormatted state its effect |
| `Conversation.Restarted` | frontend/src/ChatPage.jsx:440-494 | startNewConsultation as a transition; RestartResets and FirstSubmitAfterRestart state its effect |
| `Conversation.InvalidHandled` | frontend/src/ChatPage.jsx:837-845 | handleInvalidResponse as a transition; InvalidHandledShows states its effect |
| `Conversation.TransitionShown` | frontend/src/ChatPage.jsx:847-860 | the transition timer's closure; TransitionShownMessages states its effect |
| `Conversation.Fired` | frontend/src/ChatPage.jsx:246-248 | the firing of any set timer, with the closure it captured; FiredContinue, FiredDiagnosis, FiredTransition and StaleTimerAfterRestart state its effect |
| `Conversation.ConversationViewed` | frontend/src/ChatPage.jsx:1204-1224 | a click on a regular history item; ConversationViewedShows and ConversationViewedIdempotent state its effect |
| `Conversation.SummaryViewed` | frontend/src/ChatPage.jsx:1244-1291 | displaySummaryFromHistory as a transition; SummaryViewedShows states its effect |
| `Conversation.HistoryItemOpened` | frontend/src/ChatPage.jsx:1204-1224 | the onClick of a history item, by the item's kind; ConversationRun.ViewStep and HistoryViewOutgrowsCount state what it keeps and what it does not |
| `Conversation.HistoryCleared` | frontend/src/ChatPage.jsx:1442 | the sidebar's Clear button; HistoryClearedEmpties states its effect |
| `Conversation.Apply` | frontend/src/ChatPage.jsx:93-1560 | the page's reaction to one event; ConversationRun.EventStep and ConsistentStep prove what every event keeps |
| `Conversation.Run` | frontend/src/ChatPage.jsx:93-1560 | a run of events; ConversationRun.RunWellFormed proves what every run keeps, and RunConsistent and RunExtends what every run keeps that opens no history item |
| `Conversation.Initial` | frontend/src/ChatPage.jsx:96-165 | the mounted page is at "start" with no exchange, nothing complete and only the welcome message |
| `Conversation.Unloaded` | frontend/src/ChatPage.jsx:316 | the placeholder filter `prev.filter(msg => !msg.isLoading)`, also at lines 381, 542, 773, 848, 864 and 906; UnloadedKeepsMessages and UnloadedIdempotent state its properties |
| `Conversation.UnloadedKeepsMessages` | frontend/src/ChatPage.jsx:316 | the placeholder filter `prev.filter(msg => !msg.isLoading)` (also at lines 381, 542, 773, 848, 864 and 906) keeps exactly the real messages, in order |
| `Conversation.UnloadedIdempotent` | frontend/src/ChatPage.jsx:316 | filtering twice is filtering once |
| `ConversationProperties.PlaceholderDropped` | frontend/src/ChatPage.jsx:290-294 | the "..." placeholder added for a request is filtered out again |
| `ConversationProperties.ReplyKept` | frontend/src/ChatPage.jsx:357-358 | a real reply survives the filter |
| `ConversationProperties.LandedKeeps` | frontend/src/ChatPage.jsx:317-347 | where an error lands only the messages and the login redirect move |
| `ConversationProperties.SubmitTranscript` | frontend/src/ChatPage.jsx:271-394 | after a non-blank submission the transcript and the patient's message stay, followed by exactly one answer, and no placeholder is left |
| `ConversationProperties.SubmitCounts` | frontend/src/ChatPage.jsx:357-372 | a submission counts an exchange exactly when the server answered with a question, and empties the input |
| `ConversationProperties.SubmitCompletes` | frontend/src/ChatPage.jsx:366-392 | a submission completes the conversation exactly when the answer reaches a criticality step |
| `ConversationProperties.AnsweredFlags` | frontend/src/ChatPage.jsx:349-375 | what a successful answer changes: the count, the step, and the completion at a criticality step |
| `ConversationProperties.SubmitRequests` | frontend/src/ChatPage.jsx:298-314 | one /chat request, flagged new exactly at "start" with no exchange, always asking to ignore previous context; the exchange is saved last |
| `ConversationProperties.SubmitWithoutToken` | frontend/src/ChatPage.jsx:1067-1085 | without a stored token nothing is sent and the page goes to /login |
| `ConversationProperties.SubmitTimers` | frontend/src/ChatPage.jsx:333-344 | only the known model failure sets a timer, for a diagnosis of the current session |
| `ConversationProperties.ExchangeRecordTitle` | frontend/src/ChatPage.jsx:396-417 | the saved exchange is titled by the patient's message cut to at most 23 characters and is not a summary |
| `ConversationProperties.ContinueTranscript` | frontend/src/ChatPage.jsx:745-823 | the continuation adds one answer; only an error thrown before any response (or a missing token) leaves the placeholder behind, while an ok response whose body fails to decode comes after the filter and leaves none |
| `ConversationProperties.ContinueFlags` | frontend/src/ChatPage.jsx:790-822 | the continuation counts an exchange exactly on an answer, completes exactly at "end", and shows the summary action on every failure |
| `ConversationProperties.ContinueRequests` | frontend/src/ChatPage.jsx:757-770 | one "continue" request for the session its closure saw, preserving context exactly past the early stage |
| `ConversationProperties.DiagnosisTranscript` | frontend/src/ChatPage.jsx:884-956 | a forced diagnosis adds one answer (the diagnosis or an apology); only an error thrown before any response (or a missing token) leaves the placeholder, while a body that fails to decode at line 926 comes after the filter at 906 and leaves none |
| `ConversationProperties.DiagnosisFlags` | frontend/src/ChatPage.jsx:926-955 | a forced diagnosis always completes the conversation, never counts an exchange, and moves the step only on success, to "diagnosis" when none is named |
| `ConversationProperties.DiagnosisRequests` | frontend/src/ChatPage.jsx:894-945 | its requests name the closure's session; a recommendation goes first in the sidebar |
| `ConversationProperties.SummaryTranscript` | frontend/src/ChatPage.jsx:521-571 | the case summary adds one answer (the formatted summary or an error); only an error thrown before any response (or a missing token) leaves the placeholder, while a body that fails to decode at line 548 comes after the filter at 542 and leaves none |
| `ConversationProperties.SummaryFlags` | frontend/src/ChatPage.jsx:548-570 | a summary completes the conversation, hides the summary action and puts a "Doctor Summary" first in the sidebar; a failure changes none of these |
| `ConversationProperties.SavedSummaryIsFormatted` | frontend/src/ChatPage.jsx:551-560 | the saved summary is already formatted: formatting it again changes nothing |
| `ConversationProperties.ConversationViewedShows` | frontend/src/ChatPage.jsx:1212-1222 | an item with saved messages replaces the transcript by "Here is a previous conversation:" and those messages, sets the step to "start" and completes the conversation; an item without messages changes nothing; the count, requests, timers and sidebar stay |
| `ConversationProperties.ConversationViewedIdempotent` | frontend/src/ChatPage.jsx:1212-1222 | opening the same conversation again shows what opening it once did |
| `ConversationProperties.SummaryViewedShows` | frontend/src/ChatPage.jsx:1244-1291 | displaying a summary shows only its heading and text, sets the step to "start", completes the conversation and sends one /view_summary request for the session and the item (none without a token, and the page goes to /login); the count, timers and sidebar stay |
| `ConversationProperties.HistoryClearedEmpties` | frontend/src/ChatPage.jsx:1442 | Clear empties the sidebar and changes nothing else |
| `ConversationProperties.RestartResets` | frontend/src/ChatPage.jsx:440-494 | a new consultation resets to the welcome under the session id "user-<account>-session-<time>" and asks the server to reset it; timers and sidebar stay |
| `ConversationProperties.InvalidHandledShows` | frontend/src/ChatPage.jsx:837-845 | "Continue Anyway" shows a placeholder and sets the transition timer for the current session; it sends nothing, and the transcript without placeholders, the count, the step and completion are unchanged |
| `ConversationProperties.TransitionShownMessages` | frontend/src/ChatPage.jsx:847-860 | the transition timer removes every placeholder, adds exactly one assistant answer and sets the diagnosis timer for its closure's session; it sends nothing |
| `ConversationProperties.InvalidThenTransition` | frontend/src/ChatPage.jsx:837-860 | on a page with no timer set, the button and its first timer leave the transcript plus the transition message, nothing sent, and only the diagnosis timer pending |
| `ConversationProperties.TransitionBeforeOlderTimer` | frontend/src/ChatPage.jsx:837-860 | the 1000 ms transition timer set after a 1500 ms timer can fire first: it shows the transition message, sends nothing, and leaves the older timer set before the new diagnosis timer |
| `ConversationProperties.LastTimerDiagnoses` | frontend/src/ChatPage.jsx:857-859 | a last pending diagnosis timer sends a forced-diagnosis request for its session and leaves the conversation complete |
| `ConversationProperties.ContinueAnywayDiagnoses` | frontend/src/ChatPage.jsx:837-876 | "Continue Anyway" on a page with no timer set ends, after its two timers, with the transition message shown, a forced diagnosis requested for the session the button saw, and the conversation complete |
| `ConversationProperties.StaleTimerAfterRestart` | frontend/src/ChatPage.jsx:246-248 | any continuation or diagnosis timer set before a new consultation still sends its request for the old session when it fires |
| `ConversationProperties.FiredContinue` | frontend/src/ChatPage.jsx:246-248 | a continuation timer runs the continuation with what its closure read |
| `ConversationProperties.FiredDiagnosis` | frontend/src/ChatPage.jsx:339-341 | a diagnosis timer runs the forced diagnosis of its closure's session |
| `ConversationProperties.FirstSubmitAfterRestart` | frontend/src/ChatPage.jsx:298-310 | the first answer after a new consultation starts a new conversation for the new session |
| `ConversationProperties.CompletionCheckedFlags` | frontend/src/ChatPage.jsx:198-216 | the completion effect completes the conversation exactly at a final step or once a recommendation is shown, and then fetches the user record |
| `ConversationProperties.DiagnosisCardCompletes` | frontend/src/ChatPage.jsx:198-216 | a diagnosis card shown as an answer completes the conversation at the next check, even without a step |
| `ConversationProperties.RecommendationCheckedFlags` | frontend/src/ChatPage.jsx:218-227 | the recommendation effect completes the conversation exactly once a recommendation is shown |
| `ConversationProperties.LimitCompletes` | frontend/src/ChatPage.jsx:262-269 | the exchange-limit effect completes the conversation exactly at the limit, and cannot fire twice |
| `ConversationProperties.LimitOnce` | frontend/src/ChatPage.jsx:262-269 | a second limit check after the first changes nothing |
| `ConversationProperties.ScheduledContinuation` | frontend/src/ChatPage.jsx:229-251 | the auto-continue timer sends, when it fires, a "continue" request for that render's session |
| `ConversationProperties.AnalysisAnswerContinues` | frontend/src/ChatPage.jsx:233-244 | an answer announcing the analysis of the symptoms sets the continuation timer |
| `ConversationProperties.ThanksContinuesWithoutButton` | frontend/src/ChatPage.jsx:233-238 | the thanks for additional symptoms continues by itself but shows no continue button |
| `ConversationRun.SubmitKeeps` | frontend/src/ChatPage.jsx:271-394 | a submission keeps every counted exchange answered and only extends the filtered transcript |
| `ConversationRun.SubmitStep` | frontend/src/ChatPage.jsx:271-394 | a submission keeps the step properties of a run |
| `ConversationRun.ContinueStep` | frontend/src/ChatPage.jsx:745-823 | the continuation keeps the step properties of a run |
| `ConversationRun.DiagnosisStep` | frontend/src/ChatPage.jsx:884-956 | the forced diagnosis keeps the step properties of a run |
| `ConversationRun.SummaryStep` | frontend/src/ChatPage.jsx:521-571 | the case summary keeps the step properties of a run |
| `ConversationRun.RestartStep` | frontend/src/ChatPage.jsx:440-494 | a new consultation keeps every property but the extension of the transcript |
| `ConversationRun.TimerStep` | frontend/src/ChatPage.jsx:246-248 | whichever set timer fires, the step properties are kept |
| `ConversationRun.InvalidStep` | frontend/src/ChatPage.jsx:837-845 | the "Continue Anyway" button keeps the step properties: it adds only a placeholder and a timer |
| `ConversationRun.TransitionStep` | frontend/src/ChatPage.jsx:847-860 | the transition timer keeps the step properties: it adds one answer and sends nothing |
| `ConversationRun.LimitStep` | frontend/src/ChatPage.jsx:262-269 | the exchange-limit effect keeps the step properties |
| `ConversationRun.CompletionStep` | frontend/src/ChatPage.jsx:198-216 | the completion effect keeps the step properties |
| `ConversationRun.SignInStep` | frontend/src/ChatPage.jsx:122-152 | signing in keeps the step properties |
| `ConversationRun.ViewStep` | frontend/src/ChatPage.jsx:1204-1291 | opening a history item sends only well-formed requests and never takes completion back |
| `ConversationRun.EventStep` | frontend/src/ChatPage.jsx:93-1560 | every event sends only well-formed requests, and all but a new consultation keep completion; every event but opening a history item keeps the step properties, and of those only a new consultation rewrites the transcript |
| `ConversationRun.Preserves` | frontend/src/ChatPage.jsx:93-1560 | a step with the step properties keeps the run invariant |
| `ConversationRun.ConsistentStep` | frontend/src/ChatPage.jsx:93-1560 | every event but opening a history item keeps the run invariant |
| `ConversationRun.RunWellFormed` | frontend/src/ChatPage.jsx:93-1560 | along any run every request sent has the fixed flags of its kind |
| `ConversationRun.HistoryViewOutgrowsCount` | frontend/src/ChatPage.jsx:1212-1222 | a page with two counted exchanges that opens a one-message conversation meets the run invariant before and not after, because the count is not reset |
| `ConversationRun.RunConsistent` | frontend/src/ChatPage.jsx:93-1560 | along any run that opens no history item every request has the fixed flags of its kind and every counted exchange has its answer in the transcript |
| `ConversationRun.MountedConsistent` | frontend/src/ChatPage.jsx:96-165 | the mounted page meets the run invariant |
| `ConversationRun.RunExtends` | frontend/src/ChatPage.jsx:93-1560 | without a new consultation a run only extends the requests and never takes completion back; if it also opens no history item it only extends the transcript |
| `ChatPage.ChatController.constructor` | frontend/src/ChatPage.jsx:96-165 | the mounted page's state, meeting the run invariant |
| `ChatPage.ChatController.Type` | frontend/src/ChatPage.jsx:97 | the input box's onChange stores the text and keeps the invariant |
| `ChatPage.ChatController.HandleSubmit` | frontend/src/ChatPage.jsx:271-394 | handleSubmit leaves the state of the submission transition and keeps the run invariant |
| `ChatPage.ChatController.SubmitInput` | frontend/src/ChatPage.jsx:271-394 | a blank input does nothing; otherwise the message is shown with a placeholder, the input cleared and the request sent |
| `ChatPage.ChatController.SettleSubmit` | frontend/src/ChatPage.jsx:317-393 | the part after the request returns or fails |
| `ChatPage.ChatController.ShowAnswer` | frontend/src/ChatPage.jsx:349-375 | an answer is shown and counted, its step stored and the exchange saved |
| `ChatPage.ChatController.ReachStep` | frontend/src/ChatPage.jsx:366-372 | the named step is stored; a criticality step completes the conversation |
| `ChatPage.ChatController.UpdateChatHistory` | frontend/src/ChatPage.jsx:396-417 | the exchange is sent to /save_chat_history under the session id and nothing else changes |
| `ChatPage.ChatController.HandleContinuation` | frontend/src/ChatPage.jsx:745-823 | the continuation leaves the state of its transition, in which a thrown network error keeps the placeholder and a body that fails to decode (line 790, after the filter at 773) does not |
| `ChatPage.ChatController.TriggerContinuation` | frontend/src/ChatPage.jsx:879-881 | the "Get Diagnosis" button under a message runs the continuation with the current session and stage, and keeps the invariant |
| `ChatPage.ChatController.HandleInvalidResponse` | frontend/src/ChatPage.jsx:837-876 | the "Continue Anyway" button leaves the state of its transition and keeps the invariant |
| `ChatPage.ChatController.ShowTransition` | frontend/src/ChatPage.jsx:847-860 | the transition timer leaves the state of its transition |
| `ChatPage.ChatController.ShowContinuation` | frontend/src/ChatPage.jsx:790-808 | the continuation's answer is shown and counted; "end" completes the conversation |
| `ChatPage.ChatController.RequestDiagnosis` | frontend/src/ChatPage.jsx:884-956 | the forced diagnosis leaves the state of its transition, in which a thrown network error keeps the placeholder and a body that fails to decode (line 926, after the filter at 906) does not |
| `ChatPage.ChatController.FailDiagnosis` | frontend/src/ChatPage.jsx:946-955 | the catch block shows the apology and completes the conversation anyway |
| `ChatPage.ChatController.ShowDiagnosis` | frontend/src/ChatPage.jsx:926-945 | the diagnosis is shown and completes the conversation; at a criticality step it is saved as a recommendation |
| `ChatPage.ChatController.GetDiagnosis` | frontend/src/ChatPage.jsx:884-956 | the "Get Diagnosis" button runs the forced diagnosis for the current session and keeps the invariant |
| `ChatPage.ChatController.GenerateCaseSummary` | frontend/src/ChatPage.jsx:521-571 | the case summary leaves the state of its transition and keeps the invariant; a thrown network error keeps the placeholder and a body that fails to decode (line 548, after the filter at 542) does not |
| `ChatPage.ChatController.SettleSummary` | frontend/src/ChatPage.jsx:548-570 | the part after the summary request returns or fails |
| `ChatPage.ChatController.SaveSummaryToHistory` | frontend/src/ChatPage.jsx:574-590 | the summary entry goes first in the sidebar and is sent to the back end |
| `ChatPage.ChatController.StartNewConsultation` | frontend/src/ChatPage.jsx:440-494 | a new consultation leaves the restart state and keeps the invariant |
| `ChatPage.ChatController.Restart` | frontend/src/ChatPage.jsx:440-494 | the welcome only, a fresh session id and the reset request for it |
| `ChatPage.ChatController.Welcome` | frontend/src/ChatPage.jsx:449-466 | the seven controller fields back to a fresh conversation under the new session id |
| `ChatPage.ChatController.CheckCompletion` | frontend/src/ChatPage.jsx:198-216 | the completion effect leaves its transition's state and keeps the invariant |
| `ChatPage.ChatController.CheckRecommendations` | frontend/src/ChatPage.jsx:218-227 | the recommendation effect leaves its transition's state and keeps the invariant |
| `ChatPage.ChatController.CheckAutoContinue` | frontend/src/ChatPage.jsx:229-251 | the auto-continue effect sets the timer with what this render saw |
| `ChatPage.ChatController.CheckLimit` | frontend/src/ChatPage.jsx:262-269 | the exchange-limit effect leaves its transition's state and keeps the invariant |
| `ChatPage.ChatController.FireTimer` | frontend/src/ChatPage.jsx:246-248 | any set timer may fire next (the source fires them by deadline, 1000 ms or 1500 ms after they are set); it runs its closure's handler and the invariant is kept |
| `ChatPage.ChatController.RunTimer` | frontend/src/ChatPage.jsx:339-341 | the chosen timer is taken off, the others stay set in order, and its handler is run |
| `ChatPage.ChatController.SignIn` | frontend/src/ChatPage.jsx:122-152 | the sign-in effect adopts the account and loads its history, keeping the invariant |
| `ChatPage.ChatController.AdoptAccount` | frontend/src/ChatPage.jsx:1093-1123 | the account's id is adopted and its fetched history stored |
| `ChatPage.ChatController.LoadUserData` | frontend/src/ChatPage.jsx:419-438 | the answer to fetchUserData updates the patient record and keeps the invariant |
| `ChatPage.ChatController.OpenHistoryItem` | frontend/src/ChatPage.jsx:1204-1224 | the onClick of a history item leaves the state of its transition and keeps every request well-formed |
| `ChatPage.ChatController.DisplaySummaryFromHistory` | frontend/src/ChatPage.jsx:1244-1291 | the loading line, the /view_summary request, then the heading and the summary, the step "start" and completion |
| `ChatPage.ChatController.ClearHistory` | frontend/src/ChatPage.jsx:1442 | Clear empties the sidebar and keeps the invariant |
| `DiagnosisCard.DiagnosisHtml` | backend/main.py:491-508 | the diagnosis card; FormatDiagnosis, ItemsCount and OneItemPerStep prove its items |
| `DiagnosisCard.Parse` | backend/main.py:463-489 | the parsed card always names a condition and holds at least one action step |
| `DiagnosisCard.ParseDiagnosis` | backend/main.py:470-489 | the parsing loop over the "##" parts computes the reference parse |
| `DiagnosisCard.ScanSection` | backend/main.py:474-482 | the if/elif chain over the heading words of one part |
| `DiagnosisCard.UnparsedAnswerGivesDefaults` | backend/main.py:471-489 | an answer without "LIKELY CONDITION" gives the default condition, steps and note |
| `DiagnosisCard.LastSectionWins` | backend/main.py:473-482 | a part replaces what its first heading word names and leaves the other two |
| `DiagnosisCard.BulletStepsHaveNoBullet` | backend/main.py:478 | no bulleted step keeps a bullet |
| `DiagnosisCard.PlainStepsAreStripped` | backend/main.py:479-480 | every fallback step is a non-blank stripped line |
| `DiagnosisCard.ParseKeepsOut` | backend/main.py:463-489 | parsing brings in no character that the answer and the defaults lack |
| `DiagnosisCard.FormatDiagnosis` | backend/main.py:491-508 | the card built by the loop is the head, one item per step, and the tail |
| `DiagnosisCard.ItemsCount` | backend/main.py:499-501 | steps without a '<' give exactly one `<li>` per step |
| `DiagnosisCard.OneItemPerStep` | backend/main.py:463-508 | for an answer without '<' the card lists exactly one `<li>` per action step |
| `DiagnosisCard.DefaultsHaveNoTag` | backend/main.py:485-489 | the default texts hold no '<' |
| `DiagnosisCard.DiagnosisPrepTurn` | backend/main.py:389-512 | diagnosis_prep_handler as a reference turn: the raw answer stored as the diagnosis, the card as the next question, criticality next; DiagnosisLeadsToCriticality states where it leads |
| `DiagnosisCard.DiagnosisPrep` | backend/main.py:389-512 | the handler's result is its reference turn |
| `DiagnosisCard.DiagnosisLeadsToCriticality` | backend/main.py:510-511 | the card is followed by the criticality step, which routes to the criticality handler |
| `ForceDiagnosis.ForcedWrites` | backend/main.py:2066-2118 | the store updates of force_diagnosis; EmergencyExactly, StoreEmergency and StoreDiagnosis prove them |
| `ForceDiagnosis.ForcedReply` | backend/main.py:2066-2124 | the reply of force_diagnosis; EmergencyExactly and ReplyIsResumed prove it |
| `ForceDiagnosis.HistoryShowsMeans` | backend/main.py:2070-2078 | a sign is shown by the history exactly when some entry shows it |
| `ForceDiagnosis.ScanHistory` | backend/main.py:2066-2078 | the scanning loops compute the three flags over the whole history |
| `ForceDiagnosis.ScanEntry` | backend/main.py:2071-2078 | the loop over one entry raises the flags its values show |
| `ForceDiagnosis.ForceDiagnosis` | backend/main.py:2056-2129 | a missing user id fails with an internal error and stores nothing; otherwise the reply and the stored writes of the scan's verdict |
| `ForceDiagnosis.StoreEmergency` | backend/main.py:2080-2098 | the emergency branch stores the asthma guidance and the emergency step |
| `ForceDiagnosis.StoreDiagnosis` | backend/main.py:2100-2123 | the diagnosis branch stores the handler's diagnosis, its card and the criticality step |
| `ForceDiagnosis.StoreTwo` | backend/main.py:2092-2093 | two consecutive store updates for the same user |
| `ForceDiagnosis.StoreThree` | backend/main.py:2113-2118 | three consecutive store updates for the same user |
| `ForceDiagnosis.IsEmergency` | backend/main.py:2080 | the emergency test `has_asthma and (lost_inhaler or breathing_issues)` over the history; EmergencyExactly and HistoryShowsMeans state it entry by entry |
| `ForceDiagnosis.EmergencyExactly` | backend/main.py:2080 | the guidance is given exactly when some entry mentions asthma and some entry shows a lost inhaler or breathing trouble |
| `ForceDiagnosis.ReplyIsResumed` | backend/main.py:1512-1535 | after the endpoint, the next chat request resumes from the reported step and validates against the reported question |
| `ForceDiagnosis.QuestionThenStep` | backend/main.py:1534-1535 | storing a question and then a step makes them the latest of each |
| `Handlers.AssessUrgency` | backend/main.py:698-930 | assess_initial_urgency; AccidentIsUrgent, ChronicConditionPath, UrgencyStepsAreHandled, UrgencyStepIsKnown and CategorySelectsPath prove its outcomes |
| `Handlers.DynamicFollowUpTurn` | backend/main.py:932-1056 | dynamic_follow_up_handler; FourthTurnForcesDiagnosis, FollowUpNextStep and FreshContextKeepsQuestioning prove its next step |
| `Handlers.FirstMentionedFinds` | backend/main.py:756-772 | the first listed word that occurs is found, and none only when no listed word occurs |
| `Handlers.PreviousHistoryTurn` | backend/main.py:233-297 | the answer is always stored as the previous history, and the next step is the history step or the medication step |
| `Handlers.PreviousHistoryStays` | backend/main.py:249-253 | the handler stays on the history step exactly for a bare "yes" or a consultation without a readable diagnosis, and then asks for the diagnosis |
| `Handlers.DiagnosisNamedInQuestion` | backend/main.py:281-287 | when the handler moves on with a diagnosis, the next question names it |
| `Handlers.ConditionNameIsDiagnosis` | backend/main.py:276-287 | an answer that is just a condition name is taken as the diagnosis |
| `Handlers.NoConsultationMovesOn` | backend/main.py:292-295 | an answer reporting no consultation moves on to the medication question |
| `Handlers.AccidentIsUrgent` | backend/main.py:708-752 | an accident mention wins: urgent follow-up, urgency "urgent", the injury path, and "accident injury" recorded as a symptom |
| `Handlers.ChronicConditionPath` | backend/main.py:754-790 | otherwise the first listed chronic condition named sets the chronic path and becomes the recorded symptom |
| `Handlers.UrgencyStepsAreHandled` | backend/main.py:698-929 | every step the urgency assessment leads to is routed to the dynamic or the urgent follow-up handler on the next request |
| `Handlers.UrgencyStepIsKnown` | backend/main.py:698-929 | the assessment leads to the urgent follow-up or a dynamic step |
| `Handlers.CategoryPathIsDynamic` | backend/main.py:912-925 | every category path is a dynamic step |
| `Handlers.CategorySelectsPath` | backend/main.py:912-927 | a known category, compared lower-cased, selects its path; any other the generic dynamic questioning |
| `Handlers.FourthTurnForcesDiagnosis` | backend/main.py:951-961 | from the fourth turn on the handler goes to the diagnosis whatever the model would say |
| `Handlers.FollowUpNextStep` | backend/main.py:1038-1053 | below four turns the next step is the diagnosis when the model asks, else the model's new path, else the current step with "_continued" |
| `Handlers.FreshContextKeepsQuestioning` | backend/main.py:1667-1670 | a stored dynamic step grows by one "_continued" per turn and routing strips them all, so the same handler runs again and the count stays 1 |
| `Handlers.StrippedContinuations` | backend/main.py:1668-1670 | routing a step with trailing "_continued"s removes all of them |
| `HistoryStore.PopAll` | backend/main.py:2184-2185 | the pops at the collected, unadjusted indices; PopWindow and PopAllFailed prove it, and SaveDoctorStalePop shows the stale index |
| `HistoryStore.Saved` | backend/main.py:2160-2197 | the history written back; SaveAppendsOutsideWindow, SaveOtherSummary, SaveDoctorReplacesSingle and SaveDoctorStalePop prove its cases |
| `HistoryStore.SummaryWindow` | backend/main.py:2169-2178 | the indices the enumerate loop collects are positions of the stored history |
| `HistoryStore.ChatHistoryStore.constructor` | backend/main.py:2149 | the store starts with the given per-user histories |
| `HistoryStore.ChatHistoryStore.SaveChatHistory` | backend/main.py:2138-2211 | another user's token gives 403 and nothing changes; an unknown user (the 404 caught as 500) and a failed pop give 500 and nothing changes; otherwise the history becomes the saved list |
| `HistoryStore.CollectWindow` | backend/main.py:2170-2178 | the enumerate loop collects the window of the entry |
| `HistoryStore.PopWindow` | backend/main.py:2184-2185 | the pop loop computes the reference sequence of pops, failing when an index is out of range |
| `HistoryStore.PopAllFailed` | backend/main.py:2184-2185 | once a pop fails the whole sequence of pops fails |
| `HistoryStore.WindowMembers` | backend/main.py:2171-2178 | the window holds exactly the stored summaries less than five minutes from the entry, in ascending order |
| `HistoryStore.SaveAppendsOutsideWindow` | backend/main.py:2192-2197 | a regular entry, or a summary with no stored summary in its window, is appended |
| `HistoryStore.SaveOtherSummary` | backend/main.py:2188-2191 | a summary that is not a "Doctor Summary" is dropped when its window holds one and appended otherwise |
| `HistoryStore.SaveDoctorReplacesSingle` | backend/main.py:2183-2186 | a "Doctor Summary" whose window holds one stored summary replaces exactly that one |
| `HistoryStore.SaveDoctorStalePop` | backend/main.py:2184-2185 | with two stored summaries in the window the second pop uses a stale index: it removes the entry after the second match, and fails when that match is last |
| `UserStore.Updated` | backend/main.py:77-115 | update_user_data on one record; UpdatedOtherKey, UpdatedSymptom, UpdatedAllLogs, UpdatedAllSymptoms and UpdatedAllOtherKeys prove its effect |
| `UserStore.NewUser` | backend/main.py:61-75 | a user seen for the first time has an empty history and symptom list and is neither critical nor existing |
| `UserStore.EntryShape` | backend/main.py:87-89 | the logged entry maps the key to the value and carries the validation details when given |
| `UserStore.UpdatedOtherKey` | backend/main.py:108-113 | a key without a field of its own only logs the entry |
| `UserStore.UpdatedAll` | backend/main.py:77-115 | update_user_data applied to a run of updates in order; UpdatedAllLogs, UpdatedAllSymptoms and UpdatedAllOtherKeys state what the run does |
| `UserStore.UpdatedAllLogs` | backend/main.py:91 | a run of updates logs exactly one entry per update, in order, and keeps the user id |
| `UserStore.UpdatedAllSymptoms` | backend/main.py:94-103 | a run of updates appends exactly the reported symptoms to the symptom list |
| `UserStore.UpdatedSymptom` | backend/main.py:94-103 | one update appends the symptom its key and value report: a symptom, or additional symptoms other than "no", "none", "not really" and "that's all" |
| `UserStore.UpdatedAllOtherKeys` | backend/main.py:108-113 | updates with keys outside the field keys change nothing but the history |
| `UserStore.UserDataStore.constructor` | backend/main.py:73-75 | the store starts empty |
| `UserStore.UserDataStore.GetUserData` | backend/main.py:73-75 | the stored record, or a fresh one for an unknown user |
| `UserStore.UserDataStore.UpdateUserData` | backend/main.py:77-115 | the user's record is replaced by the updated one and no other record changes |
| `UserStore.ApplyKey` | backend/main.py:93-113 | the if/elif chain over the key sets the field the key names |
| `Routing.DetermineNextStep` | backend/main.py:1659-1695 | determine_next_step; RoutedStepIsHandled, RoutedContinued and ContinuedRoutesToBase prove where each stored step routes |
| `Routing.ProcessStep` | backend/main.py:1697-1744 | process_step's dispatch; DynamicStepDispatch, UrgentStepDispatch, CriticalityDispatch, NestedContinuationForcesDiagnosis and AccidentShortcutAgreesWithTable prove which handler runs |
| `Routing.LastValue` | backend/main.py:1512-1513 | the latest stored value of a key; LastValueIsLatest and LastValueAfterUpdate prove it |
| `Routing.RoutedStepIsHandled` | backend/main.py:1659-1743 | without a custom path every stored step not ending in "_continued" routes to a node with a handler, except "end", which falls back to the start node |
| `Routing.RoutedContinued` | backend/main.py:1668-1670 | a stored step ending in "_continued" is routed with every "_continued" removed |
| `Routing.DynamicStepDispatch` | backend/main.py:1727-1732 | a dynamic step routes to itself and runs the dynamic follow-up handler |
| `Routing.UrgentStepDispatch` | backend/main.py:1733-1734 | the urgent steps route to themselves and run the urgent follow-up handler |
| `Routing.CriticalityDispatch` | backend/main.py:1690 | the criticality step routes to the criticality handler |
| `Routing.ContinuedRoutesToBase` | backend/main.py:1668-1670 | a base step with "_continued" appended routes back to the base step |
| `Routing.NestedContinuationForcesDiagnosis` | backend/main.py:1703-1707 | a node name ending in a doubled "_continued" forces the diagnosis |
| `Routing.AccidentShortcutAgreesWithTable` | backend/main.py:1709-1719 | the accident shortcut picks the handler the table picks anyway |
| `Routing.ExpectedType` | backend/main.py:1538-1549 | the expected answer type is one of the five the validator knows |
| `Routing.ExpectedTypeIsOwnStep` | backend/main.py:1538-1549 | a specific type is expected only at the step of that name or at "start"; every other step expects a general answer |
| `Routing.LastValueIsLatest` | backend/main.py:1512-1513 | the recovered value is that of the latest entry holding the key, and the default exactly when none holds it |
| `Routing.LastValueAfterUpdate` | backend/main.py:77-115 | after an update the key's latest value is the new one and every other key keeps its latest value |
| `UrgentAdvice.UrgentCard` | backend/main.py:1116-1125 | the urgent message layout, shared with the asthma emergency at lines 2081-2090; UrgentHtmlShowsSteps proves each step appears |
| `UrgentAdvice.Padded` | backend/main.py:1112-1113 | the steps completed to four with the default step of each missing position, the given steps kept in front |
| `UrgentAdvice.ExtractedSteps` | backend/main.py:1106-1109 | the stripped non-blank numbered matches when there are at least three, otherwise the defaults; DefaultsWhenNothingExtracted and ShownStepsNonEmpty state its properties |
| `UrgentAdvice.PadSteps` | backend/main.py:1112-1113 | the padding loop computes the padded list |
| `UrgentAdvice.UrgentHtmlShowsSteps` | backend/main.py:1116-1125 | each of the first four steps appears in the message |
| `UrgentAdvice.UrgentFollowUpTurn` | backend/main.py:1058-1128 | urgent_follow_up_handler as a reference turn; UrgentHtmlShowsSteps, ShownStepsNonEmpty and EmergencyStaysUrgent state its properties |
| `UrgentAdvice.UrgentFollowUp` | backend/main.py:1058-1128 | the handler's result is its reference turn |
| `UrgentAdvice.DefaultsWhenNothingExtracted` | backend/main.py:1106-1113 | with fewer than three matches, or only blank ones, the four default steps are shown |
| `UrgentAdvice.ShownStepsNonEmpty` | backend/main.py:1109-1113 | at least four steps are shown and none is empty |
| `UrgentAdvice.EmergencyStaysUrgent` | backend/main.py:1127 | the stored "emergency_services" step keeps the conversation in the urgent handler |
| `ResponseValidation.ValidateMultiPart` | backend/main.py:2021-2053 | validate_multi_part_response; MultiPartIncompleteMeans and MissingPartIsAlwaysFirst prove its verdict |
| `ResponseValidation.MentionedMembers` | backend/main.py:1829-1833 | the mentioned conditions are exactly the listed words the answer contains |
| `ResponseValidation.MultiPartIncompleteMeans` | backend/main.py:2021-2053 | an answer is incomplete exactly when its type has a multi-part pattern, a trigger word occurs and no follow-up word does; other types are always complete |
| `ResponseValidation.MissingPartIsAlwaysFirst` | backend/main.py:2047 | the first part phrase is looked for in the lower-cased question, so the reported missing part is always the first |
| `ResponseValidation.ValidateResponse` | backend/main.py:1812-1890 | a verdict reached without the model is valid exactly when it has no feedback |
| `ResponseValidation.DecidedWithoutModel` | backend/main.py:1813-1879 | "continue", a bare "yes" to the history question and every answer of at most twenty characters are decided without the model |
| `ResponseValidation.ShortSymptomsVerdict` | backend/main.py:1849-1862 | a short symptoms answer is accepted exactly when it names a chronic condition or a complaint word |
| `ResponseValidation.ShortAnswerAccepted` | backend/main.py:1864-1879 | apart from a bare "yes" to the history question, a short answer to a question not about symptoms is accepted |
| `ResponseValidation.PartialOnlyForMultiPartTypes` | backend/main.py:1883-1890 | only the history and medication questions give partial answers |
| `ResponseValidation.ChronicConditionsReported` | backend/main.py:1828-1846 | a chronic disclosure is accepted and reports exactly the listed conditions the answer mentions |
| `ValidationPatterns.EmailPattern` | frontend/src/ValidationUtils.jsx:6 | the EMAIL regular expression as a predicate; EmailPatternMeans characterises it |
| `ValidationPatterns.PasswordPattern` | frontend/src/ValidationUtils.jsx:8 | the PASSWORD regular expression as a predicate; FormChecks.PatternPasswordIsStrong and StrongPasswordWithoutLower relate it to the pages' strength checks |
| `ValidationPatterns.NamePattern` | frontend/src/ValidationUtils.jsx:10 | the NAME regular expression as a predicate; RegisterForm.AcceptedNameMatchesPattern relates it to the page's name checks |
| `ValidationPatterns.AgePattern` | frontend/src/ValidationUtils.jsx:12 | the AGE regular expression as a predicate; AgePatternMeans, AgeMatchIsSpelling and SpellingMatchesAge characterise it |
| `ValidationPatterns.EmailPatternMeans` | frontend/src/ValidationUtils.jsx:6 | the EMAIL pattern accepts exactly the strings with one '@', no white space, something before the '@' and a '.' after it with something on both sides |
| `ValidationPatterns.AgePatternMeans` | frontend/src/ValidationUtils.jsx:12 | the AGE pattern accepts exactly the decimal spellings, without leading zeros, of 1 to 120 |
| `ValidationPatterns.AgeMatchIsSpelling` | frontend/src/ValidationUtils.jsx:12 | a match spells a number from 1 to 120 |
| `ValidationPatterns.SpellingMatchesAge` | frontend/src/ValidationUtils.jsx:12 | every spelling of 1 to 120 matches |
| `ValidationPatterns.CanonicalDigits` | frontend/src/ValidationUtils.jsx:12 | a digit string without a leading zero spells its own value |
| `JsNumbers.IsNaNString` | frontend/src/RegisterPage.jsx:170 | isNaN applied to a string; SpellingIsNumber and FractionAgePassesAsWritten use it |
| `JsNumbers.ParseInt` | frontend/src/RegisterPage.jsx:170 | parseInt without a radix; SpellingParses and SpellingReadsBack prove it reads a canonical spelling back |
| `JsNumbers.DigitRun` | frontend/src/RegisterPage.jsx:168 | the leading run of decimal digits: all digits, and stopped at the first non-digit |
| `JsNumbers.HexRun` | frontend/src/RegisterPage.jsx:168 | the leading run of hexadecimal digits: all hex digits, and stopped at the first other character |
| `JsNumbers.SpellingReadsBack` | frontend/src/RegisterPage.jsx:168-172 | the spelling of a positive number is not NaN and parseInt reads it back |
| `JsNumbers.SpellingIsNumber` | frontend/src/RegisterPage.jsx:168 | a string of digits is a number to isNaN |
| `JsNumbers.SpellingParses` | frontend/src/RegisterPage.jsx:206 | parseInt reads a digit string without a leading zero as its value |
| `FormChecks.Record` | frontend/src/RegisterPage.jsx:116-157 | a failing check adds its message under its key; a passing one leaves the record alone |
| `FormChecks.LooseEmail` | frontend/src/LoginPage.jsx:41 | `test` of the unanchored e-mail expression as a predicate; LooseEmailMeans characterises it, and StrictEmailIsLoose and LooseEmailAdmitsTwoAts relate it to the EMAIL pattern |
| `FormChecks.LooseEmailMeans` | frontend/src/LoginPage.jsx:41 | the unanchored e-mail test holds exactly when a non-space character, an '@', a run of non-space characters, a '.' and a non-space character occur in a row |
| `FormChecks.StrictEmailIsLoose` | frontend/src/RegisterPage.jsx:131 | every address the exported EMAIL pattern accepts passes the pages' test |
| `FormChecks.LooseEmailAdmitsTwoAts` | frontend/src/RegisterPage.jsx:131 | the pages' test is looser than the exported pattern: "a@@b.c" passes one and fails the other |
| `FormChecks.EmailError` | frontend/src/RegisterPage.jsx:129-133 | no e-mail error exactly when the address is not blank after trimming and passes the test |
| `FormChecks.StrengthError` | frontend/src/RegisterPage.jsx:138-146 | no strength error exactly when the password has eight characters, a capital, a digit and a listed special character |
| `FormChecks.PatternPasswordIsStrong` | frontend/src/ValidationUtils.jsx:8 | a password the exported PASSWORD pattern accepts passes the strength checks |
| `FormChecks.StrongPasswordWithoutLower` | frontend/src/RegisterPage.jsx:138-146 | the converse fails: "ABCDEF1!" passes the checks but not the pattern, which needs a lower-case letter |
| `RegisterForm.WithItems` | frontend/src/RegisterPage.jsx:34-37 | `{...formData, list: l}`: the chosen list becomes `l`, the other two lists and every text field are kept |
| `RegisterForm.NameError` | frontend/src/RegisterPage.jsx:119-126 | the name check of validateFirstStep; NameRequiredIffBlank, AcceptedNameMatchesPattern and SanitizedNameKeepsAlphabet prove it |
| `RegisterForm.AcceptedNameMatchesPattern` | frontend/src/RegisterPage.jsx:120-126 | a name that passes the page's three name tests also matches the exported NAME pattern |
| `RegisterForm.NameRequiredIffBlank` | frontend/src/RegisterPage.jsx:120-121 | the name gets "Name is required" exactly when it is empty or white space only |
| `RegisterForm.Sanitize` | frontend/src/RegisterPage.jsx:95 | the sanitised name is no longer than the typed value, holds only letters and white space, and is the typed value itself when that already holds only those |
| `RegisterForm.SanitizedNameKeepsAlphabet` | frontend/src/RegisterPage.jsx:93-99 | a name typed through handleChange can never get the "only alphabets and spaces" message |
| `RegisterForm.SanitizeIdempotent` | frontend/src/RegisterPage.jsx:95 | sanitising a sanitised value changes nothing |
| `RegisterForm.RegisterPasswordError` | frontend/src/RegisterPage.jsx:136-146 | the password passes exactly when it is at least 8 characters with a capital, a digit and a listed special character |
| `RegisterForm.ConfirmError` | frontend/src/RegisterPage.jsx:149-153 | the confirmation passes exactly when it is non-empty and equal to the password |
| `RegisterForm.FirstStepErrors` | frontend/src/RegisterPage.jsx:116-157 | validateFirstStep's record holds only the four step-one keys, and each key is present exactly when that field's check fails |
| `RegisterForm.FirstStepPasses` | frontend/src/RegisterPage.jsx:155-156 | the first step passes exactly when every field passes; then the name matches NAME, the e-mail has an '@' and a dot, the password is strong and the confirmation equals it |
| `RegisterForm.AgeErrorAsWritten` | frontend/src/RegisterPage.jsx:167-171 | the age test as written; FractionAgePassesAsWritten shows that ".5" passes it with parseInt NaN |
| `RegisterForm.FractionAgePassesAsWritten` | frontend/src/RegisterPage.jsx:170 | the age test as written lets ".5" through although parseInt reads NaN from it |
| `RegisterForm.AgeError` | frontend/src/RegisterPage.jsx:168-172 | the corrected age test passes exactly when the written test passes and parseInt reads an integer, and that integer is then in 1..120 |
| `RegisterForm.FractionAgeRejected` | frontend/src/RegisterPage.jsx:170-171 | the corrected test gives "Please enter a valid age (1-120)" for ".5" |
| `RegisterForm.CanonicalAgeAccepted` | frontend/src/RegisterPage.jsx:168-172 | every age the exported AGE pattern accepts passes the corrected test |
| `RegisterForm.SecondStepErrors` | frontend/src/RegisterPage.jsx:159-176 | the second step's record, with the corrected age test: it holds only gender and age; gender is present exactly when none was chosen, age exactly when the corrected age check fails |
| `RegisterForm.SecondStepPasses` | frontend/src/RegisterPage.jsx:174-175 | with the corrected age test, the second step passes exactly when a gender is chosen and the age passes, and then parseInt of the age is in 1..120 (as written, ".5" passes with NaN; see Findings) |
| `RegisterForm.TrimmedIsListed` | frontend/src/RegisterPage.jsx:33-36 | the trimmed text of a non-blank entry is non-empty and trimmed, so it can be stored as a list item |
| `RegisterForm.SpliceStart` | frontend/src/RegisterPage.jsx:44 | where `splice(index, 1)` starts never lies past the end of the list |
| `RegisterForm.SpliceOne` | frontend/src/RegisterPage.jsx:42-48 | `splice(index, 1)` removes exactly the element at its start and keeps the others in order; past the end it removes nothing; for an index inside the list the result plus the removed item is the old multiset |
| `RegisterForm.ReplaceListKeeps` | frontend/src/RegisterPage.jsx:34-37 | replacing a list by one of trimmed non-empty items keeps every list well-formed and every passed step passed |
| `RegisterForm.AddKeeps` | frontend/src/RegisterPage.jsx:32-40 | appending a trimmed non-blank entry keeps every list well-formed and every passed step passed |
| `RegisterForm.RemoveKeeps` | frontend/src/RegisterPage.jsx:42-49 | removing with `splice` keeps every list well-formed and every passed step passed |
| `RegisterForm.RemoveUndoesAdd` | frontend/src/RegisterPage.jsx:32-49 | removing the entry just appended gives the list back |
| `RegisterForm.SpliceKeepsListed` | frontend/src/RegisterPage.jsx:42-44 | removing keeps every remaining entry trimmed and non-empty |
| `RegisterForm.Cleared` | frontend/src/RegisterPage.jsx:108-113 | clearing keeps the same keys and the other messages; the typed field's message, if any, becomes '' |
| `RegisterForm.RegisterWizard.constructor` | frontend/src/RegisterPage.jsx:13-30 | the page starts on step 1 with an empty form, empty entry boxes and no errors, and the wizard's invariant holds |
| `RegisterForm.RegisterWizard.HandleChange` | frontend/src/RegisterPage.jsx:89-114 | the field takes the value (the name sanitised), its message is cleared, nothing else changes, and the invariant (step in 1..3, lists well-formed, passed steps still passing) is kept |
| `RegisterForm.RegisterWizard.SetTemp` | frontend/src/RegisterPage.jsx:28-30 | typing into an entry box changes only that box |
| `RegisterForm.RegisterWizard.AddItem` | frontend/src/RegisterPage.jsx:32-40 | a non-blank entry is appended trimmed to its list and its box is emptied; a blank entry changes nothing; the invariant is kept |
| `RegisterForm.RegisterWizard.RemoveItem` | frontend/src/RegisterPage.jsx:42-87 | the list becomes its `splice(index, 1)`, nothing else changes, the invariant is kept |
| `RegisterForm.RegisterWizard.HandleNext` | frontend/src/RegisterPage.jsx:178-184 | with the corrected age test: on steps 1 and 2 the current step's record replaces the errors and the step advances exactly when that record is empty; on step 3 nothing changes |
| `RegisterForm.RegisterWizard.HandleBack` | frontend/src/RegisterPage.jsx:186-190 | one step back, every message cleared, the form kept |
| `RegisterForm.RegisterWizard.Submission` | frontend/src/RegisterPage.jsx:203-212 | with the corrected age test: the body posted from step 3 carries the form's fields and an age that parseInt reads and that lies in 1..120, with a chosen gender, a NAME-pattern name, an e-mail with '@' and '.', and a strong password |
| `LoginForm.LoginPasswordError` | frontend/src/LoginPage.jsx:46-56 | the login password passes exactly when it is at least 8 characters with a capital, a digit and a listed special character |
| `LoginForm.PasswordMessagesDiffer` | frontend/src/LoginPage.jsx:46-47 | the login and registration pages give a password different messages exactly when it is non-empty white space (login trims before "required", registration does not) |
| `LoginForm.SamePasswordsAccepted` | frontend/src/LoginPage.jsx:46-56 | the login and registration pages accept the same passwords |
| `LoginForm.LoginErrors` | frontend/src/LoginPage.jsx:35-57 | validateForm's record holds only email and password, each present exactly when that field's check fails |
| `LoginForm.LoginPasses` | frontend/src/LoginPage.jsx:58-59 | validateForm returns true exactly when the e-mail is non-blank with an '@' and a dot and the password is strong |
| `LoginForm.Stored` | frontend/src/LoginPage.jsx:58 | the record stored in `errors` has the key "email" exactly when the e-mail failed and "password" exactly when the password failed, each holding that field's message |
| `LoginForm.LoginPage.constructor` | frontend/src/LoginPage.jsx:10-13 | the page starts with both fields empty, no field errors and no message |
| `LoginForm.LoginPage.HandleChange` | frontend/src/LoginPage.jsx:17-33 | only the named field takes the value; the error keys stay, a non-empty message for that name becomes '' and every other message is kept |
| `LoginForm.LoginPage.ValidateForm` | frontend/src/LoginPage.jsx:35-60 | the new record replaces the errors and the result is true exactly when both fields pass; the fields are unchanged |
| `LoginForm.LoginPage.HandleSubmit` | frontend/src/LoginPage.jsx:62-82 | the message is cleared and a request is made exactly when the form validates, carrying the typed e-mail and password |
| `ValidationHook.Fails` | frontend/src/ValidationUtils.jsx:44-71 | the six conditions of validateField, one per check; Push, FieldErrorsEmptyIff and EmptyValueSkipsFormat state how they decide the messages |
| `ValidationHook.Message` | frontend/src/ValidationUtils.jsx:44-71 | the message each check pushes, with the label falling back to the field's name; Push and FirstMessageIsFirstFailure state which one is shown |
| `ValidationHook.Push` | frontend/src/ValidationUtils.jsx:44-71 | one check pushes at most one message, and pushes one exactly when it fails |
| `ValidationHook.FieldErrors` | frontend/src/ValidationUtils.jsx:40-71 | a field collects at most six messages, one per check |
| `ValidationHook.FieldErrorsEmptyIff` | frontend/src/ValidationUtils.jsx:40-79 | a field's message list is empty, so validateField returns true, exactly when none of the six checks fails |
| `ValidationHook.FirstMessageIsFirstFailure` | frontend/src/ValidationUtils.jsx:129-137 | the message FormErrorMessage shows, the first of the list, is that of the first failing check in the order required, pattern, minLength, maxLength, equals, custom |
| `ValidationHook.EmptyValueSkipsFormat` | frontend/src/ValidationUtils.jsx:44-71 | an empty or undefined value skips the pattern and length checks: only the required, equals and custom messages can appear, in that order |
| `ValidationHook.RequiredOnly` | frontend/src/ValidationUtils.jsx:44-46 | a field ruled only by `required` passes exactly when its value is present, and otherwise gets "<name> is required" |
| `ValidationHook.PatternOnly` | frontend/src/ValidationUtils.jsx:49-51 | a field ruled only by a pattern passes exactly when its value is empty or matches |
| `ValidationHook.EmailRuleMeans` | frontend/src/ValidationUtils.jsx:6 | a field ruled by the EMAIL pattern passes exactly when it is empty or has one '@', no white space and a dotted part after the '@' |
| `ValidationHook.AllFieldErrors` | frontend/src/ValidationUtils.jsx:98-99 | validateForm computes a message list for exactly the fields with rules, each from the form's current values |
| `ValidationHook.FormErrorsAsWritten` | frontend/src/ValidationUtils.jsx:98-111 | as written, validateForm stores an entry for exactly the failing fields, each holding the snapshot's errors[name], which is undefined for a field never validated before |
| `ValidationHook.StaleErrorHidesMessage` | frontend/src/ValidationUtils.jsx:99-102 | a required field left empty and never blurred fails, yet validateForm as written stores undefined for it, so no message appears |
| `ValidationHook.ErrorsOverAdd` | frontend/src/ValidationUtils.jsx:98-103 | one more iteration of the forEach adds the field to the failing set and its messages to newErrors exactly when it fails |
| `ValidationHook.FormErrors` | frontend/src/ValidationUtils.jsx:93-113 | the corrected errors of validateForm: exactly the failing fields, each with its own non-empty list of fresh messages |
| `ValidationHook.FormHook.constructor` | frontend/src/ValidationUtils.jsx:16-19 | the hook starts with the initial values, no errors and no touched field |
| `ValidationHook.FormHook.ValidateField` | frontend/src/ValidationUtils.jsx:36-80 | a field without rules is valid and stores nothing; otherwise its messages are stored (null when there are none) and the result is whether there were none; values and touched are kept |
| `ValidationHook.FormHook.HandleChange` | frontend/src/ValidationUtils.jsx:22-33 | the value is stored; a touched field with rules is validated against the values before the change; otherwise the errors are kept |
| `ValidationHook.FormHook.HandleBlur` | frontend/src/ValidationUtils.jsx:83-90 | the field is marked touched and validated with the blurred value |
| `ValidationHook.FormHook.ValidateForm` | frontend/src/ValidationUtils.jsx:93-113 | the result is true exactly when every field with rules passes, the errors become the corrected record, and every field with rules is marked touched |
| `ValidationHook.FormHook.Collect` | frontend/src/ValidationUtils.jsx:98-109 | the forEach loop: the form is valid exactly when no field fails, newErrors holds the failing fields with their messages, every field is touched, and the stored errors are untouched until the loop ends |

The model keeps two behaviours of the source that look unintended but are stated as written,
without a corrected version: the forced-diagnosis and history endpoints turn the 400 or 404
they raise inside their `try` into a 500, and `save_chat_history` pops the matched window
entries by ascending index, so with two matches the second pop removes the wrong entry
(`HistoryStore.SaveDoctorStalePop`).

## Left out

- Language-model calls (`llm.invoke`) and the regular-expression and `json.loads` parsing of their output are foreign code: each handler takes the model's answer, or the parsed assessment, as a parameter.
- HTTP transport, `fetch`/`fetchWithAuth`, JSON encoding and decoding, MongoDB, JWT, bcrypt and `uuid` are I/O or external libraries: a server reply is an input variant, and only the missing-token short-circuit of the token check is modelled. The variants are `Ok`, `Http`, `Throw` (fetch rejected before any response), `Undecodable` (an ok response whose `response.json()` throws, after the placeholder filter) and `NoToken`.
- The clock, `setTimeout` delays and React's re-rendering are scheduling: the time is a parameter, a timer is an explicit fire action, and timers are never cancelled, as in the source. How effects interleave with pending `await`s is not modelled.
- `Conversation.Fired`: any set timer may fire next, so the model covers every firing order, including the deadline order of the source's 1000 ms and 1500 ms delays, but does not single that order out. The lemmas about two timers in a row are stated for a page with no other timer set, where they can fire only in that order.
- Case mapping is ASCII only. String lengths count characters rather than UTF-16 code units. `new Date(timestamp || id)` is taken to be a well-formed integer time in milliseconds, with distinct ids.
- The FastAPI route bodies of `start_node`, `collect_symptoms_handler`, `medication_history_handler`, `additional_symptoms_handler`, `generate_diagnosis`, `assess_criticality` and `generate_summary` are not modelled: they only ask a fixed question or pass model output through, and `process_step` dispatch to them is modelled.
- The body of the `/chat` endpoint is modelled only for the recovery of the last step from history and the expected-type map. Its rebuilding of the state record, which never carries a custom path or context, is not modelled.
- The `/register`, `/token`, `/login`, `/users/me`, `/user/{user_id}`, `/debug/users`, `/generate_summary`, `/view_summary` and `/chat_history` endpoints are storage and authentication wrappers and are not modelled.
- The LangGraph edges built in `backend/main.py` are never used for dispatch and are not modelled.
- A Python `KeyError` on a malformed request, and request bodies whose fields have the wrong JSON type, are not modelled: requests are records of the right shape, and the history of the forced diagnosis holds strings.
- The 404 of `force_diagnosis` for an unknown user cannot happen, since `get_user_data` creates the record, so the model has no such path.
- The validation details of a history entry are stored as a string, so their dictionary structure is not modelled. The asthma scan of `force_diagnosis` never looks at them, because in the source its string test skips dictionaries.
- The catch block of `handleInvalidResponse` is not modelled: nothing in its `try` block can throw.
- The onClick of a history item and `displaySummaryFromHistory` are modelled as an event. Its parameters stand for what the model's `Entry` does not carry: the item's saved messages, and the heading and text of the summary. The heading holds a `toLocaleDateString()` date. The text comes from the `/view_summary` reply or, failing it, from the item's own copy. A summary item without messages makes the fallback throw, so the page stays on "Loading summary..."; this case is not modelled.
- `ConversationRun.RunConsistent`: holds only for runs that open no history item. Opening one replaces the transcript without resetting `messageCount`, so the count can outgrow the transcript (`HistoryViewOutgrowsCount`). `RunWellFormed` keeps the request half for every run.
- `ConversationRun.ConsistentStep`: excludes opening a history item, for the same reason.
- `ConversationRun.RunExtends`: the transcript half holds only for runs that open no history item, since opening one replaces the transcript.
- `ChatPage.ChatController.OpenHistoryItem`: promises only that every request stays well-formed, not the run invariant, since the count is not reset.
- The preview text of `renderChatHistoryItem`, `stripHtml`, `testBackendConnection`, `handleLogout` and the JSX rendering are display code or DOM calls and are not modelled. The message classifiers behind the rendering are modelled.
- `fetchUserData` is modelled only for its reply: the defaults it fills in for missing fields are not.
- `startNewConsultation` for a signed-out user, and `requestDiagnosis` reading an undefined `next_question`, are JavaScript coercions of `null` and `undefined`: the model takes an account id and a string answer.
- `RegisterForm.RegisterWizard.HandleChange`: requires that the changed input is rendered on the current step, as the page's JSX ensures; a change from an input not on screen is not modelled.
- The `error` and `isLoading` fields of the registration and login pages, the `login()` call of the authentication context and the navigation after a successful post are not modelled: they follow the network call.
- `RegisterForm.RegisterWizard.Submission`: parseInt is read as an unbounded integer; the precision of numbers beyond 2^53 is not modelled.
- `RegisterForm.RegisterWizard.HandleNext`: the wizard runs the corrected age test `AgeError`, not the page's test as written. An age such as ".5", which the page lets through to step 3 and then posts `age: null` (`JSON.stringify` serialises NaN as null), which the back end's `age: int` field rejects with 422, keeps the model on step 2 with an age error. The as-written test is `AgeErrorAsWritten`, and the first Findings row records the difference.
- `RegisterForm.RegisterWizard.Submission`: its bound on the posted age holds for the corrected wizard only; as written, `handleSubmit` can read NaN from the age and so posts `age: null` (`JSON.stringify` serialises NaN as null), which the back end's `age: int` field rejects with 422.
- `RegisterForm.SecondStepErrors`: built on the corrected `AgeError`; for ".5" it records an age error that `validateSecondStep` as written does not.
- `RegisterForm.SecondStepPasses`: the bound on parseInt holds for the corrected test only.
- The validation hook's values are optional strings; rules on other JavaScript values are not modelled. `FormErrorMessage` is modelled only as the choice of the first message.
- `ValidationHook.FormHook.ValidateForm`: stores the corrected record `FormErrors` (each failing field's fresh messages), not the snapshot value `errors[name]` that line 102 stores. The as-written half is `FormErrorsAsWritten`, and `StaleErrorHidesMessage` shows the difference (see the Findings row). It also computes every field's messages before the loop rather than inside it, which gives the same result, because a field's messages depend only on the form's values.
- `useFormValidation` is not used by the registration or login pages, which carry their own checks; the three are modelled separately and related by lemmas.

## Findings

| source | as written | input that shows it | evidently intended | confidence | as-written member | corrected member |
|---|---|---|---|---|---|---|
| frontend/src/RegisterPage.jsx:168-172 | the age passes when it is not NaN as a number and `parseInt(age)` is neither `<= 0` nor `> 120`; for a string that parseInt reads as NaN both comparisons are false | age ".5": `isNaN(".5")` is false and `parseInt(".5")` is NaN, so step two passes and `handleSubmit` posts `age: null` (`JSON.stringify` serialises NaN as null), which the back end's `age: int` field rejects with 422 | parseInt must read an integer from 1 to 120 | not executed | `RegisterForm.FractionAgePassesAsWritten` | `RegisterForm.AgeError` |
| frontend/src/ValidationUtils.jsx:99-102 | `validateForm` stores `errors[name]` from the render's snapshot for each failing field, not the messages just computed | a required field "email" that was never blurred, with no value: the form is invalid, but the stored error is `undefined`, so no message is shown | store the field's fresh messages | not executed | `ValidationHook.StaleErrorHidesMessage` | `ValidationHook.FormErrors` |
