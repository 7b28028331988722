# LegalSimplifier front end: a Dafny model

LegalSimplifier is a Next.js front end for a legal-document analysis
service. A user uploads a contract and the backend rates each clause green,
yellow or red, or flags a missing ("ghost") clause. The user can then open a
clause for a plain-language explanation, ask for a rewrite in a chosen tone,
chat with an assistant about the document, list the clauses the document
lacks, and follow a video-summary job.

This project models that front end's state and decision rules. The fetch
wrappers of `lib/api.ts` become a request builder (`Api.RequestOf`) and a
settling rule (`Api.Settle`). Each component whose `useState` fields change
step by step becomes a class with those fields, for example the upload page,
the chat modal, the clause modal, the missing-clause analysis, the landing header
and toggles. The pure rendering decisions become functions, for example
risk-to-card lookups, event keys, video flags and the dashboard's
ghost/normal dispatch.

Each async handler is split in two methods. `Begin…` is the part before its
`await` and returns the request it issues. `End…` or `Complete…` is the
continuation: it takes the remote result as a parameter,
`Outcome<T> = Success(payload) | Failure(msg)`, together with the values the
closure captured. The network, the router and the clock therefore never
appear. Each handler is one sequential step.

In several places the code does something other than what its names,
comments and API shapes suggest, and the model follows the code:

- The clause-detail fetch writes `data.explanation` and `data.alternatives`
  into the clause, falling back on a fixed text and `[]`. Nothing else is
  read.
- `MissingClausesModal` only lists the backend's suggestions. It does not
  turn them into clauses.
- `NegotiationHelper` calls its own canned generator, not `negotiateClause`.
  The generator never fails.
- The timeline popover fetches from its own canned event list, not from
  `getTimeline`.
- Risk strings outside the four names are not coerced. They are kept as
  `Other(name)`, and each lookup falls back on its default entry.
- With the configured base URL, `getTimeline` and `exportRedline` always
  fail with "API not available".

Some behaviour of the code is easy to miss, and the model keeps it:

- When the chat adopts a fresh session id from a reply, the change of
  selection runs the selection effect. That effect clears the transcript,
  including the reply just appended, and requests the session's stored
  history (`ChatAssistant.FirstQuestion`).
- The clause card's ring class is the interpolation
  `${!isSelected && config.ring}`. On a selected card it therefore renders
  the class "false" (`ClauseCard.ViewOf`).
- `getClauseDetail` removes only the first ".txt" of an id, wherever it
  occurs. The modal removes one before calling it, so up to two occurrences
  go (`ClauseDetailModal.DetailStripsTwice`). An id with one occurrence, or
  none, reaches the backend as the id without it (`DetailStripsOnce`,
  `DetailKeepsPlain`).
- The upload's progress interval is cleared only by its own tenth tick,
  never when the upload settles. After a failure it keeps writing the
  progress value, which is not rendered while the page shows the error
  (`UploadPage.FailureKeepsTicking`). It shows again on a retry: the retry
  resets the bar to 0, and the old interval's next tick moves it to that
  interval's count (`UploadPage.RetryShowsStaleTick`). After a fast success
  the rendered bar falls back from 100 to the interval's count and climbs
  again (`UploadPage.SuccessFallsBack`). For the same reason an idle page
  can hold a non-zero progress value, which it does not render.

## Model

| member | source | states |
|---|---|---|
| Types.ParseRisk | lib/types.ts:4 | a risk string is read without loss: the result's name is the input string, and only the four named ratings become named cases |
| Types.ParseRiskName | lib/types.ts:4 | reading back a risk's stored name gives the same risk (the partner of ParseRisk) |
| Strings.TrimEmptyIffBlank | components/shared/ChatAssistant.tsx:176 | `s.trim()` is empty exactly when every character of s is JavaScript whitespace |
| Strings.BeforeFirst | components/shared/Timeline.tsx:110 | `split('_')[0]` is a prefix without '_' that is either the whole string or stops at the first '_' |
| Strings.SplitJoin | components/analysis/TimelineView.tsx:20 | joining a non-empty list whose elements avoid the separator's first character and splitting again gives the list back |
| Api.Endpoint | lib/api.ts:5-10 | every endpoint URL starts with the configured base followed by '/' |
| Api.RequestOf | lib/api.ts:8-167 | every wrapper's URL lies under the base URL, and a request carries a body exactly when it is a POST |
| Api.ResourcePaths | lib/api.ts:10-21 | the upload, result and video-status URLs are base + "/upload", "/result/{uid}" and "/videogen/status/{jobId}" |
| Api.UploadBodyCarriesForm | lib/api.ts:10-13 | the upload's multipart body holds the file, `doc_name` and `doc_type` of the form |
| Api.Settle | lib/api.ts:14-15 | a call succeeds exactly on an ok response, returning its body; a non-ok response fails with the wrapper's own message; a rejected fetch passes its error on |
| Api.FailureMessagesDistinct | lib/api.ts:14-164 | wrappers of different kinds fail with different messages, whatever the status text |
| Api.OnlyDeleteNamesDelete | lib/api.ts:100-102 | only `deleteSession`'s message starts "Failed to d" |
| Api.SettleSessions | lib/api.ts:74-79 | `getSessions` succeeds exactly on an ok response, yielding its `sessions` field or [] when absent; its failure message is the generic one |
| Api.GetTimeline | lib/api.ts:105-125 | with the configured base URL the timeline call always fails with "API not available" |
| Api.ExportRedline | lib/api.ts:127-143 | with the configured base URL the export always fails with "API not available", whatever the options |
| Api.CleanStripsFirstTxt | lib/api.ts:28 | the first ".txt" is removed even when text follows it |
| Api.CleanKeepsPlainId | lib/api.ts:28 | an id without ".txt" is left as it is |
| Api.ClauseDetailUrl | lib/api.ts:28-29 | the clause-detail URL is the endpoint "clause/{uid}/" followed by the cleaned id |
| Api.ClauseDetailIgnoresTxt | lib/api.ts:28-29 | "x.txt" and "x" issue the same request, to base + "/clause/{uid}/x" |
| Api.CleanRemovesOnlyFirst | lib/api.ts:28 | only the first occurrence goes: "a.txt.txt" becomes "a.txt" |
| Api.CleanRemovesInnerTxt | lib/api.ts:28 | an occurrence that is not a suffix is removed too: "notes.txt.bak" becomes "notes.bak" |
| Api.SessionEndpointsShared | lib/api.ts:81-103 | history fetch, session fetch and delete share the path base + "/sessions/{id}" and differ only in method |
| Api.ChatBodyCarriesArguments | lib/api.ts:62-67 | the chat body carries uid and question unchanged, and `session_id` exactly when one is given |
| Api.NegotiateBodyCarriesArguments | lib/api.ts:51-56 | the negotiate body holds uid, clauseId, tone, origin and risk as given |
| Api.DeleteYieldsNothing | lib/api.ts:95-103 | `deleteSession` resolves to nothing on an ok response and fails with "Failed to delete session: " + status text otherwise |
| UploadPage.TrailingRun | app/upload/page.tsx:27 | the length of the longest suffix free of '.' and '/', and the character before it is one of them |
| UploadPage.ExtensionUnique | app/upload/page.tsx:27 | the extension pattern `\.[^/.]+$` matches in at most one place |
| UploadPage.StripExtension | app/upload/page.tsx:27 | the pre-filled name is a prefix of the file name; it is the whole name exactly when the pattern does not match, and otherwise it ends where the match starts |
| UploadPage.StripCutsAtMatch | app/upload/page.tsx:27 | wherever the pattern matches, the name is cut exactly there |
| UploadPage.StripExamples | app/upload/page.tsx:27 | "a.b.pdf" gives "a.b"; "noext", "file." and "v1.2/notes" are kept; ".env" gives "" |
| UploadPage.Validate | app/upload/page.tsx:48-59 | the submit is skipped exactly without a file or a name; it is accepted exactly when the size is at most 10 MiB and the type is whitelisted, with the form's fields; otherwise it is rejected with one of the two messages |
| UploadPage.SizeCheckedFirst | app/upload/page.tsx:52-59 | an oversized file is reported as too large, whatever its type |
| UploadPage.TypeRejected | app/upload/page.tsx:56-58 | a file of the right size but another type is rejected as unsupported |
| UploadPage.LimitInclusive | app/upload/page.tsx:52 | exactly 10 MiB is accepted and one byte more is rejected |
| UploadPage.UploadFlow.constructor | app/upload/page.tsx:15-20 | the page starts idle with no file, an empty name, type "pdf", progress 0 and no error |
| UploadPage.UploadFlow.OnDrop | app/upload/page.tsx:23-30 | a non-empty drop selects the first file, pre-fills the stripped name and moves to configuring; an empty drop changes nothing |
| UploadPage.UploadFlow.DropOnZone | app/upload/page.tsx:32-37 | the dropzone passes drops on only while the page is idle |
| UploadPage.UploadFlow.EditDocName | app/upload/page.tsx:149-153 | the name follows the input except while uploading or after success, when the input is disabled |
| UploadPage.UploadFlow.RemoveFile | app/upload/page.tsx:39-44 | the file, name, status and progress return to their initial values; the error stays |
| UploadPage.UploadFlow.ClickRemove | app/upload/page.tsx:138 | the remove button does nothing while uploading and otherwise runs `removeFile` |
| UploadPage.UploadFlow.BeginAnalysis | app/upload/page.tsx:46-77 | the error is cleared; a skipped or rejected submit leaves the status and issues no upload (a rejection shows its message); an accepted one moves to uploading with progress 0, sets a new interval at count 0, disables the remove button and the name input, hides the analyse button, and issues the form |
| UploadPage.UploadFlow.CompleteAnalysis | app/upload/page.tsx:78-87 | success ends with progress 100 and the target "/result/" + uid; failure ends in error showing the thrown message, or the fixed text when it is empty; the intervals are left running; the analyse button returns exactly on failure, and the name input is enabled again exactly on failure |
| UploadPage.UploadFlow.Tick | app/upload/page.tsx:65-70 | one firing of a live interval in any state: its count grows by 10 and becomes the progress; the tick that reaches 100 clears it; nothing else changes, and the progress never passes 100 |
| UploadPage.EnabledSubmitValidates | app/upload/page.tsx:181-184 | an analyse button that is rendered and enabled always reaches the size and type checks, never the silent return |
| UploadPage.FailureKeepsTicking | app/upload/page.tsx:65-87 | after a failed upload, the interval's next tick still writes the progress value, which the errored page does not render |
| UploadPage.RetryShowsStaleTick | app/upload/page.tsx:61-87 | on a retry after a failure, the bar is reset to 0 and a second interval is set, and the first interval's next tick shows the visible bar at 20 |
| UploadPage.SuccessFallsBack | app/upload/page.tsx:65-87 | after a fast successful upload, the interval's next tick sets the rendered bar back from 100 to 10 |
| UploadPage.SubmitAndSettle | app/upload/page.tsx:46-87 | a valid submit ends in success with the result path, or in error with a non-empty message, keeping the invariant |
| FileUploadForm.SubmitRequest | components/upload/FileUploadForm.tsx:18-23 | a request is built exactly when there is a file and a name, and it carries the file, name and type |
| FileUploadForm.SettledEffect | components/upload/FileUploadForm.tsx:24-31 | success navigates to "/result/" + uid and failure alerts "Upload failed" |
| FileUploadForm.SubmitDisabled | components/upload/FileUploadForm.tsx:181 | the button is disabled exactly while loading or when the submit guard would stop |
| FileUploadForm.FirstFile | components/upload/FileUploadForm.tsx:87 | the picked file is the first of the input's files, or none when it has none |
| FileUploadForm.Form.constructor | components/upload/FileUploadForm.tsx:9-13 | no file, empty name, type "pdf", not loading, no drag highlight |
| FileUploadForm.Form.BeginSubmit | components/upload/FileUploadForm.tsx:16-23 | the request is the guard's; a stopped submit changes nothing and never sets loading; a sent one sets loading |
| FileUploadForm.Form.CompleteSubmit | components/upload/FileUploadForm.tsx:24-31 | the effect is the settled effect and loading is false after success or failure |
| FileUploadForm.Form.Drop | components/upload/FileUploadForm.tsx:34-41 | the highlight always ends; the first dropped file is selected, and an empty drop keeps the old file |
| FileUploadForm.Form.DragOver | components/upload/FileUploadForm.tsx:43-46 | dragover turns the highlight on and changes nothing else |
| FileUploadForm.Form.DragLeave | components/upload/FileUploadForm.tsx:48-51 | dragleave turns the highlight off and changes nothing else |
| FileUploadForm.Form.PickFile | components/upload/FileUploadForm.tsx:87 | the file input sets the file to its first file or none |
| FileUploadForm.Form.ClearFile | components/upload/FileUploadForm.tsx:106 | "Choose different file" clears the file only |
| FileUploadForm.Form.SetDocName | components/upload/FileUploadForm.tsx:139 | the name follows the input |
| FileUploadForm.Form.SetDocType | components/upload/FileUploadForm.tsx:159 | the type follows the select |
| FileUploadForm.SubmitOnce | components/upload/FileUploadForm.tsx:16-31 | a submit from an enabled button sends the form's file and name, ends with the settled effect and leaves loading false |
| ChatAssistant.Transcript | components/shared/ChatAssistant.tsx:171 | a stored history becomes a transcript of the same length, each message keeping its role with `content` as its text |
| ChatAssistant.HistoryOf | components/shared/ChatAssistant.tsx:171 | the history a transcript was read from, element by element |
| ChatAssistant.TranscriptRoundTrip | components/shared/ChatAssistant.tsx:171 | converting a history to a transcript loses nothing |
| ChatAssistant.ReplyMessage | components/shared/ChatAssistant.tsx:180-182 | the assistant message is the answer on success and "Sorry, an error occurred." on failure |
| ChatAssistant.SendBlocked | components/shared/ChatAssistant.tsx:176 | a send is blocked exactly for blank text or while a reply is pending |
| ChatAssistant.FormSubmission | components/shared/ChatAssistant.tsx:77 | the floating form passes the text on unchanged, and only when it is not blank |
| ChatAssistant.FormKey | components/shared/ChatAssistant.tsx:78 | Escape closes the form; Enter submits it only with Meta or Ctrl held |
| ChatAssistant.SendDisabled | components/shared/ChatAssistant.tsx:210 | the send button is disabled exactly when a send would be blocked |
| ChatAssistant.ViewOf | components/shared/ChatAssistant.tsx:198-204 | the prompt shows iff there are no messages, no session and no pending reply; the loader iff no messages and a pending reply; the transcript otherwise |
| ChatAssistant.ChatModal.constructor | components/shared/ChatAssistant.tsx:163-167 | empty input, transcript and session list, not loading, no selection |
| ChatAssistant.ChatModal.SetInput | components/shared/ChatAssistant.tsx:209 | the input follows the textarea and nothing else changes |
| ChatAssistant.ChatModal.Open | components/shared/ChatAssistant.tsx:170 | opening asks for the session list |
| ChatAssistant.ChatModal.SessionsLoaded | components/shared/ChatAssistant.tsx:170 | a loaded list replaces the sessions; a failed fetch leaves them |
| ChatAssistant.ChatModal.SelectionEffect | components/shared/ChatAssistant.tsx:171 | the transcript is emptied and the history is requested exactly for a truthy selection |
| ChatAssistant.ChatModal.SelectSession | components/shared/ChatAssistant.tsx:171-194 | a new selection runs the effect; re-selecting the same session changes nothing |
| ChatAssistant.ChatModal.NewSession | components/shared/ChatAssistant.tsx:174 | the selection is cleared and the transcript emptied if there was one |
| ChatAssistant.ChatModal.HistoryLoaded | components/shared/ChatAssistant.tsx:171 | the loaded history replaces the transcript wholesale |
| ChatAssistant.ChatModal.BeginSend | components/shared/ChatAssistant.tsx:175-179 | a blocked send changes nothing and calls nothing; otherwise the untrimmed text is appended as the user's, loading is set, the input cleared, and the chat call carries uid, text and selection |
| ChatAssistant.ChatModal.SendFromInput | components/shared/ChatAssistant.tsx:210 | the send button sends the current input: it does something exactly when the button is enabled, and then appends the input, clears it, and calls the chat with uid, input and selection |
| ChatAssistant.ChatModal.TextareaKeyDown | components/shared/ChatAssistant.tsx:209 | Enter without Shift sends the input as the button does; any other key changes nothing |
| ChatAssistant.Highlights | components/shared/ChatAssistant.tsx:194 | one flag per session row, set exactly on the selected session |
| ChatAssistant.HighlightUnique | components/shared/ChatAssistant.tsx:194 | with distinct ids at most one row is highlighted |
| ChatAssistant.HighlightIffListed | components/shared/ChatAssistant.tsx:194 | some row is highlighted exactly when the selected id is among the listed sessions |
| ChatAssistant.ChatModal.EndSend | components/shared/ChatAssistant.tsx:179-183 | exactly one assistant message is appended; loading ends; a returned session id is adopted only when none was selected |
| ChatAssistant.SendInSession | components/shared/ChatAssistant.tsx:175-183 | inside a selected session a send adds exactly the user message and the reply, and keeps the selection |
| ChatAssistant.FirstQuestion | components/shared/ChatAssistant.tsx:176-183 | the first question of a new chat adopts the reply's session, which clears the transcript and requests the stored history |
| ClauseDetailModal.ClauseObject.constructor | lib/types.ts:15-23 | the clause object holds the given clause's fields |
| ClauseDetailModal.WithDetail | components/analysis/ClauseDetailModal.tsx:64-65 | only the explanation (falling back on the fixed text) and the alternatives (falling back on []) change; the explanation is never empty |
| ClauseDetailModal.WithDetailLastWins | components/analysis/ClauseDetailModal.tsx:64-65 | a second detail overrides the first entirely |
| ClauseDetailModal.DetailRequest | components/analysis/ClauseDetailModal.tsx:61-62 | the detail request is for the clause's document and for its id with the first ".txt" removed |
| ClauseDetailModal.DetailKeepsPlain | components/analysis/ClauseDetailModal.tsx:61-62 | an id without ".txt" is requested unchanged under the clause's document |
| ClauseDetailModal.DetailStripsOnce | components/analysis/ClauseDetailModal.tsx:61-62 | an id with one ".txt" is requested without it: "3.txt" requests clause "3" |
| ClauseDetailModal.DetailStripsTwice | components/analysis/ClauseDetailModal.tsx:61-62 | with the wrapper's own cleaning, the first two ".txt" of an id are removed from the requested path |
| ClauseDetailModal.LookOf | components/analysis/ClauseDetailModal.tsx:89-90 | green, yellow and red have their own look; an absent clause, ghost and any other value get the default |
| ClauseDetailModal.LooksDistinct | components/analysis/ClauseDetailModal.tsx:10-31 | the three rated looks have different status texts |
| ClauseDetailModal.Modal.constructor | components/analysis/ClauseDetailModal.tsx:50-52 | no clause, no negotiation, not negotiating, no error |
| ClauseDetailModal.Modal.ReceiveClause | components/analysis/ClauseDetailModal.tsx:54-73 | a new non-null clause resets the negotiation and the error and requests its detail; the same clause or null does nothing |
| ClauseDetailModal.Modal.DetailLoaded | components/analysis/ClauseDetailModal.tsx:59-69 | success writes the detail into that clause object; failure shows the fixed error and leaves the clause |
| ClauseDetailModal.Modal.BeginNegotiate | components/analysis/ClauseDetailModal.tsx:75-80 | without a clause nothing happens; otherwise negotiating starts, which disables the buttons, the error clears, and the call carries the document, id, tone, text and risk |
| ClauseDetailModal.Modal.ClickNegotiate | components/analysis/ClauseDetailModal.tsx:136-157 | a click on a negotiate button does nothing while the detail is loading (the buttons are not rendered) or while a negotiation is in flight, so no second negotiation starts before the first settles |
| ClauseDetailModal.Modal.EndNegotiate | components/analysis/ClauseDetailModal.tsx:81-86 | success stores the result, failure shows the fixed error, negotiating ends and the buttons are enabled again, and the clause is never written |
| ClauseDetailModal.Negotiate | components/analysis/ClauseDetailModal.tsx:75-86 | a whole negotiation re-enables the buttons and leaves the clause's text and risk as they were |
| NegotiationHelper.MockSuggestion | components/analysis/NegotiationHelper.tsx:9-13 | the canned suggestion opens with "Based on a " followed by the tone's name |
| NegotiationHelper.MockSuggestionInjective | components/analysis/NegotiationHelper.tsx:12 | different tones give different suggestions |
| NegotiationHelper.Helper.constructor | components/analysis/NegotiationHelper.tsx:26-28 | tone starts friendly with no suggestion and not loading |
| NegotiationHelper.Helper.SetTone | components/analysis/NegotiationHelper.tsx:62 | a tone button sets the tone |
| NegotiationHelper.Helper.BeginNegotiate | components/analysis/NegotiationHelper.tsx:30-35 | loading starts, the previous suggestion is cleared, the current tone is asked for, and the button is disabled and reads "Generating Suggestion..." |
| NegotiationHelper.Helper.ClickGenerate | components/analysis/NegotiationHelper.tsx:81-85 | a click does nothing while loading, so no second request starts while one is pending; otherwise it starts one for the current tone |
| NegotiationHelper.Helper.EndNegotiate | components/analysis/NegotiationHelper.tsx:36-41 | the suggestion is the answer or the fixed apology, loading ends, and the button is enabled again and reads "Generate AI Suggestion" |
| NegotiationHelper.Generate | components/analysis/NegotiationHelper.tsx:30-41 | with the canned generator a click always ends with the suggestion for the tone selected when it was made |
| MissingClausesModal.Cards | components/analysis/MissingClausesModal.tsx:144-157 | one card per suggestion in order, with its name, description and "Why it matters: " + reason |
| MissingClausesModal.ViewOf | components/analysis/MissingClausesModal.tsx:118-144 | results show iff an analysis succeeded, with a count equal to the number of cards; the start button is disabled and relabelled while loading |
| MissingClausesModal.CardsAppend | components/analysis/MissingClausesModal.tsx:144-157 | appending a suggestion appends exactly its card |
| MissingClausesModal.Analysis.constructor | components/analysis/MissingClausesModal.tsx:45-47 | no suggestions, not loading, not analysed |
| MissingClausesModal.Analysis.BeginAnalyze | components/analysis/MissingClausesModal.tsx:59-62 | loading starts and the ghost-clause call is issued for the document |
| MissingClausesModal.Analysis.EndAnalyze | components/analysis/MissingClausesModal.tsx:65-72 | success stores `missing_clauses` or [] and marks the analysis; failure empties the list without marking it; loading ends |
| MissingClausesModal.Analysis.ResetAnalysis | components/analysis/MissingClausesModal.tsx:75-78 | the list empties and the start screen returns |
| MissingClausesModal.AnalyzeOnce | components/analysis/MissingClausesModal.tsx:59-72 | a successful analysis ends on the results with one card per suggestion |
| Timeline.EventKey | components/shared/Timeline.tsx:110 | the key is the part of `type` before its first '_', or of `event_type` when `type` is falsy; it never contains '_' |
| Timeline.KeyIgnoresSuffix | components/shared/Timeline.tsx:110 | "upload_started" and "upload" give the same key |
| Timeline.ConfigOf | components/shared/Timeline.tsx:23-31 | the six named keys pick their config and anything else the default; every colour has classes |
| Timeline.ConfigColorsDistinct | components/shared/Timeline.tsx:23-29 | the six named types have six colours, none of them the default's |
| Timeline.BodyOf | components/shared/Timeline.tsx:99-103 | the empty notice and the list render only when neither loading nor failed, the notice iff the list is empty |
| Timeline.MockEvents | components/shared/Timeline.tsx:10-16 | the five canned events are named by `event_type` and carry their timestamps |
| Timeline.KeyOfNamedEvent | components/shared/Timeline.tsx:110 | an event named by `event_type` alone, without '_', is keyed by it |
| Timeline.MockEventKeys | components/shared/Timeline.tsx:10-16 | each canned event is keyed by its own type |
| Timeline.DetailBox | components/shared/Timeline.tsx:130-134 | the details box shows exactly when the event has non-empty details, and shows those details |
| Timeline.MockEventDetails | components/shared/Timeline.tsx:10-16 | only the canned negotiation and analysis show details, with their texts, and the list runs newest first |
| Timeline.Popover.constructor | components/shared/Timeline.tsx:50 | the popover starts closed |
| Timeline.Popover.Key | components/shared/Timeline.tsx:53-56 | the fetch key is null exactly while closed |
| Timeline.Popover.Toggle | components/shared/Timeline.tsx:75 | the button flips the popover |
| Timeline.Popover.Close | components/shared/Timeline.tsx:93 | the close button closes it and nothing is fetched |
| Timeline.Popover.MouseDown | components/shared/Timeline.tsx:58-66 | a press outside closes it and a press inside leaves it |
| Timeline.ToggleTwice | components/shared/Timeline.tsx:75 | two clicks on the button restore the popover and its key |
| SessionsSidebar.LastThree | components/shared/SessionsSidebar.tsx:110 | the preview is the last three messages in order, or all of fewer |
| SessionsSidebar.LastThreeAppend | components/shared/SessionsSidebar.tsx:110 | the preview after one more message is computed from the previous preview |
| SessionsSidebar.Rows | components/shared/SessionsSidebar.tsx:72-118 | one row per session in order; highlighted iff selected; previewing iff expanded and the history arrived |
| SessionsSidebar.Sidebar.constructor | components/shared/SessionsSidebar.tsx:13 | nothing is expanded at first |
| SessionsSidebar.Sidebar.ToggleExpand | components/shared/SessionsSidebar.tsx:31-33 | the expanded session collapses, any other expands in its place |
| SessionsSidebar.Sidebar.Key | components/shared/SessionsSidebar.tsx:19-20 | history is keyed only for an expanded session |
| SessionsSidebar.Sidebar.HistoryRequest | components/shared/SessionsSidebar.tsx:19-25 | history is fetched only for the expanded session |
| SessionsSidebar.Sidebar.ViewOf | components/shared/SessionsSidebar.tsx:39-70 | closed renders nothing; open shows loading, an empty notice, or the rows |
| SessionsSidebar.SessionClick | components/shared/SessionsSidebar.tsx:27-29 | a row click selects its session |
| SessionsSidebar.NewSession | components/shared/SessionsSidebar.tsx:35-37 | "New Session" selects none |
| ClauseCard.ConfigOf | components/analysis/ClauseCard.tsx:17-59 | green, yellow, red and ghost read "Low Risk", "Medium Risk", "High Risk" and "Missing Clause"; the general config is used exactly for any other value |
| ClauseCard.LabelsSeparateRisks | components/analysis/ClauseCard.tsx:17-53 | two risks share a label exactly when they are equal or both unnamed |
| ClauseCard.StringLookup | components/analysis/ClauseCard.tsx:59 | a stored risk string outside the four names gets the general config |
| ClauseCard.ViewOf | components/analysis/ClauseCard.tsx:64-91 | the card shows the clause text and label; aria-pressed and the selected style equal the selection; the ring class is the config's ring unselected and "false" selected |
| ClauseCard.RingOnlyWhenUnselected | components/analysis/ClauseCard.tsx:78 | the hover ring is applied exactly when the card is not selected |
| ClauseCard.Click | components/analysis/ClauseCard.tsx:63 | a click reports the clause's id |
| ClauseCard.KeyDown | components/analysis/ClauseCard.tsx:74 | Enter and Space report the clause's id and other keys nothing |
| GhostClauseCard.ViewOf | components/analysis/GhostClauseCard.tsx:40-56 | the card shows the text, and the reason exactly when the explanation is non-empty; the button is disabled and relabelled exactly while loading |
| GhostClauseCard.Add | components/analysis/GhostClauseCard.tsx:52-53 | the add button reports the clause text, and only when enabled |
| AnalysisDashboard.SlotOf | components/analysis/AnalysisDashboard.tsx:16-20 | a ghost clause gets a missing-clause card and every other clause a normal card, keyed by its id |
| AnalysisDashboard.GhostDispatchOnString | components/analysis/AnalysisDashboard.tsx:16-20 | on a risk read from the backend's string, the missing-clause card and the add event occur exactly when that string is "ghost" |
| AnalysisDashboard.Slots | components/analysis/AnalysisDashboard.tsx:15-21 | one card per clause in input order |
| AnalysisDashboard.Activate | components/analysis/AnalysisDashboard.tsx:16-20 | a normal card reports its id and a ghost card its text |
| AnalysisDashboard.GhostCardsCounted | components/analysis/AnalysisDashboard.tsx:15-21 | there are exactly as many missing-clause cards as ghost clauses |
| AnalysisDashboard.ExampleInteractions | components/analysis/__tests__/AnalysisDashboard.test.tsx:41-78 | both example clauses render; clicking the first reports "1" and adding from the second reports "Clause 2" |
| VideoModal.FlagsOf | components/analysis/VideoModal.tsx:19-21 | generating iff queued or in progress, completed iff "completed", failed iff "failed" |
| VideoModal.FlagsExclusive | components/analysis/VideoModal.tsx:19-21 | at most one flag holds and a null status gives none |
| VideoModal.ViewOf | components/analysis/VideoModal.tsx:43-71 | the spinner follows generating; the player shows iff completed with a truthy URL; the failure note shows iff failed, with the error or "Unknown error" |
| VideoModal.OnePanelAtMost | components/analysis/VideoModal.tsx:43-72 | the spinner, the player and the failure note never show together |
| VideoModal.CompletedJobScenario | components/analysis/VideoModal.tsx:19-63 | queued, in progress, then completed with a URL shows the spinner twice and then the player |
| ExportControls.Controls.constructor | components/analysis/ExportControls.tsx:8-10 | both boxes start ticked and the watermark empty |
| ExportControls.Controls.ClickGhosts | components/analysis/ExportControls.tsx:19-20 | the ghost box flips and nothing else changes |
| ExportControls.Controls.ClickEli5 | components/analysis/ExportControls.tsx:28-29 | the explanations box flips and nothing else changes |
| ExportControls.Controls.SetWatermark | components/analysis/ExportControls.tsx:39-40 | the watermark follows the field |
| ExportControls.Controls.Export | components/analysis/ExportControls.tsx:47 | export emits exactly the current triple |
| ExportControls.ExportDefaults | components/analysis/ExportControls.tsx:8-47 | exporting at once emits {true, true, ""} |
| ExportControls.ClicksCommute | components/analysis/ExportControls.tsx:19-29 | the boxes toggle independently and a double click restores one |
| TimelineView.ItemOf | components/analysis/TimelineView.tsx:17-21 | an item shows its change's type, timestamp, joined ids and risk impact, keyed by id |
| TimelineView.Items | components/analysis/TimelineView.tsx:16-23 | one item per change, in order |
| TimelineView.AffectedRoundTrip | components/analysis/TimelineView.tsx:20 | for ids without a comma, splitting the joined text at ", " gives the ids back |
| TimelineView.AffectedExamples | components/analysis/TimelineView.tsx:20 | ["c2", "c3"] reads "c2, c3", a single id appears alone, and no ids read like one empty id |
| Header.VisibilityRule | components/landing/Header.tsx:11-17 | within the first 100 px, or when not moving down, the header shows; moving down past 100 px hides it |
| Header.Bar.constructor | components/landing/Header.tsx:6-7 | the header starts visible at position 0 |
| Header.Bar.HandleScroll | components/landing/Header.tsx:10-19 | visibility follows the rule for the previous and the new position, and the new position is remembered |
| Header.DownAndBack | components/landing/Header.tsx:10-19 | scrolling down past 100 px hides the header, and scrolling back shows it again |

## Left out

- Networking: `fetch`, JSON decoding and the `Content-Type` headers are not modelled. Each wrapper's result is an `Outcome` parameter.
- Routing and browser side effects: `router.push`, `alert`, `console.error`, focus and blur, and the document `mousedown` listeners are not modelled. A navigation or an alert is returned as a value, and a mouse press as a flag.
- Timers: the clock itself is not modelled. The progress interval's firings are a method, `UploadPage.UploadFlow.Tick`, that the environment may call in any order, so the 120 ms spacing and how the ticks interleave with the upload's settling are left open. The one-shot delays (the 800 ms redirect, the 2000 ms analysis delay, the 300 ms reset delay, the focus delay and the canned generators' sleeps) are modelled as the delayed update itself.
- Races between overlapping requests and stale responses are not modelled. Each handler is one step, and its continuation is given the values its closure captured.
- React's rendering: the in-place clause mutation in ClauseDetailModal does not itself trigger a re-render, and the model does not capture that.
- The browser `File`: it is reduced to name, size and MIME type. The dropzone's `accept`/`multiple` filtering and the inputs' `required` attribute are browser behaviour and are left out.
- `formatFileSize` uses floating point (`Math.log`, `toFixed`); it only formats text.
- Date formatting with `toLocaleString`/`toLocaleDateString` is left out. Timestamps are opaque strings, and the canned events take them as a parameter.
- JavaScript object lookups with keys such as "toString", which hit prototype members, are not modelled. Every lookup table is a total function with its fallback.
- The sessions and history fetches in ChatAssistant have no error handler. A failed fetch is modelled as leaving the state unchanged.
- `Header` reads `window.scrollY` as an integer; fractional scroll positions are not modelled.
- Styling, animation, the meteor positions and the marketing pages are left out.
- UploadPage.UploadFlow.CompleteAnalysis: requires status uploading. This is the only state its continuation is reachable from.
- ChatAssistant.ChatModal.EndSend: takes the selection the call was made with as a parameter (the closure's captured value), not the current one.
- The test files for ChatAssistant, NegotiationHelper, ClauseCard, ClauseDetailModal and FileUploadForm assert text these components no longer render, and are not modelled. The HeaderControls and button tests are about components outside this model. The dashboard, ExportControls and TimelineView tests agree with their components and are modelled (`AnalysisDashboard.ExampleInteractions`, `ExportControls.ExportDefaults`, `TimelineView.AffectedExamples`).
