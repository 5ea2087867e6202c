# legalAI front end: a Dafny model of its rules

legalAI is a React front end for judges, advocates and citizens. It sends
case text to a hosted language model and renders the JSON that comes back.
Most of it is layout. Between the layout sits a set of small rules, and this
project models those rules and proves what they promise:

- the request card's relative time ("3 hours ago"), its badges, and which controls it offers;
- the advocate's inbox: a status update by id, and the split into pending and handled requests;
- the case chat: read receipts, the "typing" indicator, the send guard, and the summary and next-step panels;
- the general chatbot's transcript;
- the service module: the two prompt templates, the empty-reply guard, the one fixed error per call, and the response schemas;
- the research hub's three-stage pipeline;
- the navigation tables: the sidebar per role, the advocate's feature-flagged tools, and the portals listed per kind of case;
- the relevance meter's colour buckets;
- the request lifecycle that every AI view repeats: blank input is refused with a fixed message; otherwise error and result are cleared and loading is raised; the result or a fixed error is stored; loading is lowered.

Layout of the model:

- One module per source file. `Core` holds the shared helpers: `Option`, `Outcome` (a settled await: `Ok(value)` or `Err(message)`), JavaScript's `trim`, `includes`, and integer-to-text.
- `Types` and `MockData` hold the records and the seed data.
- `Lifecycle` holds the shared view state machine.
- `Uploads` holds the `text/plain` acceptance rule (`Uploads.Accepts`), which every `FileChosen` method states its read decision by.
- A view whose handlers update React state is a class whose fields are that state.
- An `async` handler is split at its `await`:
  - `HandleX` runs the guard and the synchronous part. It returns the service call it issues, if any.
  - `XSettled(outcome)` runs the code after the `await`, including `finally`.
- Each view class has a `State()` function. Its methods are stated against `Lifecycle.Refuse`, `Begin` and `Settle`, and the lemmas of `Lifecycle` state what those steps guarantee.
- The language-model calls, and the service functions the views import, are parameters or outcomes passed in. `JSON.parse` is a parameter `string -> Option<T>`.
- Time is integer milliseconds. A relevance score is an exact real, rounded to a whole percentage as `Math.round(score * 100)` does.

## Model

| member | source | states |
|---|---|---|
| Core.Trim | services/geminiService.ts:102 | `trim()` removes exactly the leading and trailing JavaScript whitespace: the result occurs in the input right after the removed prefix, every character before and after it is whitespace, and it neither starts nor ends with whitespace |
| Core.BlankIffTrimEmpty | components/CaseChat.tsx:54 | `!s.trim()` holds exactly when every character of `s` is whitespace (the guard every handler uses) |
| Core.TrimOfTrimmed | services/geminiService.ts:102 | trimming text that already has no whitespace at either end changes nothing |
| Core.ContainsIffOccurs | components/ExplainableAI.tsx:137 | `includes(sub)` holds exactly when `sub` occurs at some offset |
| Core.DecimalRoundTrip | components/RequestCard.tsx:47-56 | the count shown in "N units ago" reads back as the number: the digit text loses nothing |
| RequestCard.ElapsedSeconds | components/RequestCard.tsx:45 | the elapsed whole seconds are the floor of the millisecond difference divided by 1000 |
| RequestCard.AgoFromSeconds | components/RequestCard.tsx:46-56 | the first unit, from years to minutes, of which strictly more than one has elapsed is chosen, counted in whole units (at least 1); up to 60 s, negative included, the seconds themselves are reported; every coarser unit was not exceeded |
| RequestCard.AgoUnitMonotone | components/RequestCard.tsx:46-56 | a longer elapsed time never gets a finer unit |
| RequestCard.AgoBoundaries | components/RequestCard.tsx:50-56 | an exact boundary drops to the next unit: 86400 s is 24 hours, 60 s is 60 seconds, 61 s is 1 minute, 365 days are 12 months, -5 s stays -5 seconds |
| RequestCard.TimeAgoOneDay | components/RequestCard.tsx:44-56 | a request exactly one day old reads "24 hours ago" |
| RequestCard.TimeAgoFuture | components/RequestCard.tsx:44-56 | a timestamp five seconds in the future reads "-5 seconds ago" |
| RequestCard.StatusBadge | components/RequestCard.tsx:15-24 | a badge exists exactly for Accepted, Rejected and Pending; it is labelled with the status, and only Pending pulses |
| RequestCard.UrgencyBadge | components/RequestCard.tsx:29-38 | a badge exists exactly for High, Medium and Low, labelled "<level> Urgency" |
| RequestCard.BadgesDistinguishValues | components/RequestCard.tsx:15-38 | two different values never get the same badge |
| RequestCard.ClickAction | components/RequestCard.tsx:59-63 | a click opens the chat, with the request id, exactly when the request is Accepted and `onOpenChat` was passed |
| RequestCard.ClickableAndDecisionExclusive | components/RequestCard.tsx:59-84 | no card is both clickable and showing Reject/Accept |
| CaseRequests.UpdateStatusAt | components/CaseRequests.tsx:60-63 | the update keeps length and order; each request whose id matches gets the new status with every other field unchanged; the others are unchanged |
| CaseRequests.UpdateUnknownId | components/CaseRequests.tsx:61-63 | an id that no request has leaves the list identical |
| CaseRequests.UpdateIdempotent | components/CaseRequests.tsx:62 | applying the same decision twice equals applying it once |
| CaseRequests.FilterMembers | components/CaseRequests.tsx:67-68 | the pending list holds exactly the pending requests and the handled list exactly the others |
| CaseRequests.PendingHandledPartition | components/CaseRequests.tsx:67-68 | the two lists together are the requests as a multiset, so their sizes add up to the total |
| CaseRequests.FiltersKeepOrder | components/CaseRequests.tsx:67-68 | both filters keep relative order: filtering a concatenation concatenates the filtered parts |
| CaseRequests.DecisionMovesToHandled | components/CaseRequests.tsx:83-89 | after Accept or Reject on a request, no pending request has its id, and the decided request is in the handled list |
| CaseRequests.SeedInboxSplit | components/CaseRequests.tsx:5-42 | the seed inbox has REQ001 and REQ002 pending, in that order, and two handled requests |
| CaseRequests.Inbox.constructor | components/CaseRequests.tsx:45-46 | on mount the list is empty and loading is shown |
| CaseRequests.Inbox.FetchCompleted | components/CaseRequests.tsx:48-53 | the simulated fetch stores the seed list and lowers loading |
| CaseRequests.Inbox.HandleUpdateRequest | components/CaseRequests.tsx:60-63 | the stored list becomes the updated copy of the old one |
| CaseChat.LastOtherIndex | components/CaseChat.tsx:113 | finds the other party's last message: every later message is the current user's |
| CaseChat.ReadIffBeforeLastOther | components/CaseChat.tsx:111-113 | a message is marked read exactly when the current user sent it and it comes before the other party's last message |
| CaseChat.OthersNeverRead | components/CaseChat.tsx:111-113 | the other party's messages are never marked read |
| CaseChat.ReadMarksPrefixClosed | components/CaseChat.tsx:113 | if one of the current user's messages is read, so is each earlier one of theirs |
| CaseChat.TypingImpliesAllRead | components/CaseChat.tsx:42-113 | while the other party has the last word, all of the current user's messages are read |
| CaseChat.SeedThreadReceipts | data/mockData.ts:43-58 | in the seed thread the advocate's greeting is read and the citizen's reply is not yet |
| CaseChat.TypingRaisedOnlyByOtherParty | components/CaseChat.tsx:42-46 | the indicator is raised only by a last message from the other party |
| CaseChat.TypingIndicatorSticks | components/CaseChat.tsx:40-50 | as written, the indicator stays up with no timer pending once the current user answers within 1.5 s (see Findings) |
| CaseChat.OnMessagesChangedFixed | components/CaseChat.tsx:40-50 | the corrected effect: the indicator is up exactly while the other party has the last word, and only with a timer pending |
| CaseChat.FixedEffectConsistent | components/CaseChat.tsx:40-50 | the corrected effect leaves the indicator up only with a timer pending and the other party holding the last word, from any earlier state |
| CaseChat.TimerLowersTyping | components/CaseChat.tsx:46 | a pending timer always lowers the indicator, and the state it leaves is consistent |
| CaseChat.AsWrittenBreaksConsistency | components/CaseChat.tsx:40-50 | the effect as written turns a consistent indicator into one that is up with no timer while the current user has the last word |
| CaseChat.SuggestionDisplay | components/CaseChat.tsx:153-158 | a non-empty `clarification_needed` is shown instead of the list; otherwise the suggestions are shown as given |
| CaseChat.ChatPanel.HandleSend | components/CaseChat.tsx:53-57 | blank input: nothing is sent and the box keeps its text; otherwise the untrimmed input is sent once and the box is cleared |
| CaseChat.ChatPanel.HandleSummarize | components/CaseChat.tsx:65-70 | both result panels are cleared, the busy flag is raised, and the thread is sent |
| CaseChat.ChatPanel.SummarySettled | components/CaseChat.tsx:71-76 | the summary becomes the reply, or the fixed fallback; the busy flag is lowered either way |
| CaseChat.ChatPanel.HandleSuggestNextSteps | components/CaseChat.tsx:79-84 | both result panels are cleared, the busy flag is raised, and the thread is sent |
| CaseChat.ChatPanel.SuggestionsSettled | components/CaseChat.tsx:85-90 | the reply is stored, or an empty list with the fixed clarification text, which is then what the panel shows; the busy flag is lowered |
| Chatbot.IdleTranscriptPairsTurns | components/Chatbot.tsx:16-53 | with no reply pending, the transcript is the greeting plus exactly two messages per send |
| Chatbot.ChatWindow.constructor | components/Chatbot.tsx:16-20 | the transcript starts as the greeting alone |
| Chatbot.ChatWindow.OpenSession | components/Chatbot.tsx:24-26 | the mount effect creates the session |
| Chatbot.ChatWindow.HandleSend | components/Chatbot.tsx:34-40 | blank input, a pending reply or no session: nothing changes; otherwise the user turn with the untrimmed input is appended, the input is sent, the box is cleared and loading is raised; the transcript stays well formed |
| Chatbot.ChatWindow.ReplySettled | components/Chatbot.tsx:44-53 | exactly one bot turn is appended, the reply or the fixed apology, to the unchanged earlier transcript; loading is lowered |
| GeminiService.RagPrompt | services/geminiService.ts:82-90 | the query sits verbatim right after `USER QUESTION: "`, the context verbatim after the opening `---` line |
| GeminiService.RagPromptDelimiters | services/geminiService.ts:84-88 | the closing quote and opening `---` follow the query, and the closing `---` follows the context |
| GeminiService.RagPromptNotEscaped | services/geminiService.ts:84-87 | nothing is escaped: a query that contains the delimiter text gives the same prompt as a shorter query with a longer context |
| GeminiService.RagPromptRecoverable | services/geminiService.ts:82-90 | for queries without a double quote, the prompt determines both the query and the context |
| GeminiService.PrecedentPrompt | services/geminiService.ts:115-129 | the context sits verbatim after the opening `---` that follows "CASE CONTEXT:" |
| GeminiService.PrecedentPromptInjective | services/geminiService.ts:115-129 | different contexts give different prompts |
| GeminiService.PerformRagSearch | services/geminiService.ts:80-111 | the result is the parse of the trimmed reply exactly when the call succeeds, the reply is not blank and the parse succeeds; every failure is the one fixed message |
| GeminiService.BlankRagReplyRefused | services/geminiService.ts:102-105 | a blank reply fails even when the parser would accept the empty text |
| GeminiService.GetPrecedentAnalysis | services/geminiService.ts:113-147 | the result is the parse of the trimmed reply exactly when the call and the parse succeed; every failure is the one fixed message |
| GeminiService.BlankPrecedentReplyGoesToParser | services/geminiService.ts:141-142 | with no empty check here, a blank reply succeeds exactly when the parser accepts "" |
| GeminiService.RagSchemaSound | services/geminiService.ts:13-29 | the RAG schema requires only properties it declares |
| GeminiService.KeyArgumentsSchemaSound | services/geminiService.ts:35-42 | the key-arguments schema requires only properties it declares |
| GeminiService.InfluencingStatuteSchemaSound | services/geminiService.ts:46-54 | each statute item requires only properties it declares |
| GeminiService.ConsistencyCheckSchemaSound | services/geminiService.ts:59-66 | each consistency item requires only properties it declares |
| GeminiService.BiasDetectionSchemaSound | services/geminiService.ts:68-74 | the bias schema requires only properties it declares |
| GeminiService.PrecedentSchemaSound | services/geminiService.ts:32-77 | the precedent schema requires exactly its four top-level fields |
| Lifecycle.RunEndsWithExactlyOne | components/PrecedentSearch.tsx:42-54 | an accepted request ends not loading, with the value on success or the fixed message on failure, never both |
| Lifecycle.RunForgetsEarlierState | components/addons/BiasMonitor.tsx:20-32 | an accepted request's end state depends only on its outcome |
| Lifecycle.RefusalKeepsEarlierResult | components/SimilarCaseAnalyzer.tsx:20-23 | a refused request sets the error and leaves the earlier result on screen |
| Lifecycle.QuietPreserved | components/ExplainableAI.tsx:41-53 | no step shows an error or a result while loading |
| AIResearchHub.RunPipelineSucceeds | components/AIResearchHub.tsx:42-55 | the pipeline succeeds exactly when all three calls succeed in turn, each given the earlier results, and its result is then the summary's |
| AIResearchHub.HubView.StageLabel | components/AIResearchHub.tsx:91-94 | the stage label is shown exactly while loading, always one of the labels from stage 1 on, so "Analyzing Case Facts..." never appears |
| AIResearchHub.HubView.HandlePipelineRun | components/AIResearchHub.tsx:31-43 | blank facts: the fixed error, no call, stage 0; otherwise error and result are cleared, loading is raised, stage 1 is shown and the similar-case call is issued |
| AIResearchHub.HubView.SimilarSettled | components/AIResearchHub.tsx:46-63 | success moves to stage 2 and issues the RAG call; failure sets the fixed error and returns to stage 0 |
| AIResearchHub.HubView.RagSettled | components/AIResearchHub.tsx:52-63 | success moves to stage 3 and issues the summary call with both earlier results; failure sets the fixed error and returns to stage 0 |
| AIResearchHub.HubView.SummarySettled | components/AIResearchHub.tsx:55-63 | the result is stored only now, or the fixed error; loading ends and the stage returns to 0 |
| AIResearchHub.HubView.Fail | components/AIResearchHub.tsx:57-63 | any failure sets the fixed error, leaves the result empty and returns to stage 0 |
| AIResearchHub.HubView.Run | components/AIResearchHub.tsx:31-64 | a whole run ends at stage 0 in the state the three outcomes determine; the stage stays in 0..3 throughout, a valid index into the stage labels |
| Sidebar.RoleViews | components/Sidebar.tsx:42-63 | judge: dashboard, analytics; advocate: dashboard, search, builder; citizen: dashboard, case_filing; any other role: nothing |
| Sidebar.NavListsWellFormed | components/Sidebar.tsx:42-75 | every non-empty list starts with the dashboard, names each view once, and only whitelisted views |
| Sidebar.AtMostOneActive | components/Sidebar.tsx:97 | at most one item is highlighted |
| Sidebar.ViewSelection.HandleNavigation | components/Sidebar.tsx:71-82 | a whitelisted view becomes active; any other leaves the active view unchanged |
| AdvocateNav.SwitchedOnMembers | components/AdvocateNav.tsx:29 | the filter keeps exactly the entries whose flag is on |
| AdvocateNav.SwitchedOnConcat | components/AdvocateNav.tsx:29 | the filter keeps declared order |
| AdvocateNav.AvailableEntries | components/AdvocateNav.tsx:20-29 | the offered entries are the five unflagged tools in declared order, with the drafts tool and the calendar each exactly when its flag is on |
| AdvocateNav.AvailableIds | components/AdvocateNav.tsx:20-29 | the same menu, by id |
| AdvocateNav.ConfiguredMenu | featureFlags.ts:6-20 | with the flags as configured, all seven tools are offered |
| AdvocateNav.AvailableIdsDistinct | components/AdvocateNav.tsx:21-29 | no two offered entries share an id |
| AdvocateNav.AtMostOneActive | components/AdvocateNav.tsx:37 | at most one entry is highlighted |
| AdvocateNav.ClickHighlightsEntry | components/AdvocateNav.tsx:37-41 | a click makes its entry, and no other, the highlighted one |
| CaseFiling.LinksToShow | components/CaseFiling.tsx:48 | the list is non-empty exactly for the five kinds of case, and is then that kind's table entry |
| CaseFiling.LinksAreHttps | components/CaseFiling.tsx:7-25 | every listed portal address starts with `https://` |
| CaseFiling.LinkCounts | components/CaseFiling.tsx:7-48 | consumer and property list two portals, the others one each, and no choice lists none |
| CaseFiling.FilingForm.ShownPanel | components/CaseFiling.tsx:95-116 | the form's panel: nothing before submission; afterwards the chosen kind's portals exactly when it has some, else the notice |
| CaseFiling.Panel | components/CaseFiling.tsx:95-116 | nothing is shown before submission; afterwards the portals exactly when the kind of case has some, otherwise the "no links" notice |
| CaseFiling.FilingForm.HandleInputChange | components/CaseFiling.tsx:38-41 | the named field takes the value and every other field keeps its own |
| CaseFiling.FilingForm.HandleSubmit | components/CaseFiling.tsx:43-46 | the form is marked as submitted, which nothing resets |
| CaseFiling.SubmitWithoutCaseType | components/CaseFiling.tsx:48-115 | submitting with no kind of case chosen shows the notice |
| CaseResultCard.RelevanceColor | components/CaseResultCard.tsx:13-16 | above 90 green, above 80 sky, above 70 amber, otherwise slate; exactly one colour |
| CaseResultCard.RelevanceColorMonotone | components/CaseResultCard.tsx:13-16 | a higher percentage never gets a lower bucket |
| CaseResultCard.RelevanceBoundaries | components/CaseResultCard.tsx:14-16 | 90, 80 and 70 fall into the lower bucket |
| CaseResultCard.RoundPercent | components/CaseResultCard.tsx:12 | the percentage is within one half of the scaled score, on the lower side inclusive, as `Math.round` rounds halves up |
| CaseResultCard.RoundPercentUnique | components/CaseResultCard.tsx:12 | that bound fixes the rounded percentage uniquely |
| CaseResultCard.RoundPercentMonotone | components/CaseResultCard.tsx:12 | a higher score never rounds to a lower percentage |
| CaseResultCard.RelevanceMeter | components/CaseResultCard.tsx:11-23 | the bar's width is the score rounded to a percentage, and its colour is the bucket of that width |
| CaseResultCard.ScoreLabel | components/CaseResultCard.tsx:43 | the printed percentage is the score rounded to a percentage |
| CaseResultCard.LabelMatchesMeter | components/CaseResultCard.tsx:11-45 | the printed percentage and the bar's width, rounded separately, agree for every score |
| CaseResultCard.MeterColorMonotone | components/CaseResultCard.tsx:11-23 | a higher score never gets a lower colour bucket |
| CaseResultCard.CardFor | components/CaseResultCard.tsx:25-60 | the card prints the meter's own percentage, coloured by its bucket, and the case's title, citation, court, summary, takeaway and sections unchanged |
| PrecedentSearch.ButtonCoversAcceptedSearches | components/PrecedentSearch.tsx:38-93 | every search the handler accepts can be started from the button; a whitespace-only question enables the button but is refused |
| PrecedentSearch.SearchNeedsQueryBox | components/PrecedentSearch.tsx:88-93 | the Search button is never enabled while the question box is disabled; with the box usable, the button is enabled exactly for a non-empty question |
| PrecedentSearch.SearchView.FileChosen | components/PrecedentSearch.tsx:17-35 | a plain-text file starts a read; any other choice clears the file name and the document |
| PrecedentSearch.SearchView.FileLoaded | components/PrecedentSearch.tsx:21-27 | the read sets the document and the file name and clears result and error |
| PrecedentSearch.SearchView.HandleSearch | components/PrecedentSearch.tsx:37-45 | a blank question or document: the fixed error and no call; otherwise the request begins and the call is issued |
| PrecedentSearch.SearchView.SearchSettled | components/PrecedentSearch.tsx:46-54 | the result or the fixed error is stored and loading is lowered |
| ExplainableAI.ConsistencyDisplay | components/ExplainableAI.tsx:125-132 | the "no inconsistencies" text is shown exactly when the list is empty; otherwise the list is shown as given |
| ExplainableAI.AbsentFirstChar | components/ExplainableAI.tsx:137 | a text without the marker's first letter never gets the neutral style |
| ExplainableAI.BiasStyleExamples | components/ExplainableAI.tsx:137 | the marker test is case-sensitive: "No potential bias detected." is neutral, the lower-case form is not |
| ExplainableAI.AnalysisView.FileChosen | components/ExplainableAI.tsx:16-34 | a plain-text file starts a read; any other choice clears the file name and the document |
| ExplainableAI.AnalysisView.FileLoaded | components/ExplainableAI.tsx:20-26 | the read sets the document and the file name and clears result and error |
| ExplainableAI.AnalysisView.HandleAnalyze | components/ExplainableAI.tsx:36-44 | a blank document: the fixed error and no call; otherwise the request begins and the call is issued |
| ExplainableAI.AnalysisView.AnalysisSettled | components/ExplainableAI.tsx:45-53 | the result or the fixed error is stored and loading is lowered |
| LegalDraftGenerator.ButtonLooserThanGuard | components/addons/LegalDraftGenerator.tsx:16-89 | every request the handler accepts can be made from the button; a whitespace-only field enables the button but is refused |
| LegalDraftGenerator.DefaultIsOffered | components/addons/LegalDraftGenerator.tsx:8-60 | the default draft type is the first of the four offered |
| LegalDraftGenerator.DraftView.HandleGenerate | components/addons/LegalDraftGenerator.tsx:15-24 | either field blank: the fixed error and no call; otherwise the request begins and the call carries the type and both fields |
| LegalDraftGenerator.DraftView.GenerateSettled | components/addons/LegalDraftGenerator.tsx:25-33 | the draft or the fixed error is stored and loading is lowered |
| LegalDraftGenerator.DraftView.HandleCopy | components/addons/LegalDraftGenerator.tsx:35-40 | the draft is copied exactly when there is a non-empty one |
| BiasMonitor.BiasDisplay | components/addons/BiasMonitor.tsx:71-93 | the "no bias" panel is shown exactly when `has_bias` is false; otherwise the findings, in order |
| BiasMonitor.BiasDisplayEdgeCases | components/addons/BiasMonitor.tsx:71-93 | a missing `has_bias` shows the findings panel, even when it is empty |
| BiasMonitor.ButtonCoversAcceptedRuns | components/addons/BiasMonitor.tsx:16-49 | every text the handler accepts can be sent from the button; whitespace-only text enables the button but is refused |
| BiasMonitor.MonitorView.HandleAnalyze | components/addons/BiasMonitor.tsx:15-24 | blank text: the fixed error and no call; otherwise the request begins and the call is issued |
| BiasMonitor.MonitorView.AnalysisSettled | components/addons/BiasMonitor.tsx:25-33 | the result or the fixed error is stored and loading is lowered |
| SimilarCaseAnalyzer.Cards | components/SimilarCaseAnalyzer.tsx:87-89 | one card per similar case found, in result order |
| SimilarCaseAnalyzer.CardsConcat | components/SimilarCaseAnalyzer.tsx:87-89 | the cards of a concatenation are the concatenated cards |
| SimilarCaseAnalyzer.ButtonCoversAcceptedRuns | components/SimilarCaseAnalyzer.tsx:20-54 | every fact text the handler accepts can be sent from the button; whitespace-only facts enable the button but are refused |
| SimilarCaseAnalyzer.AnalyzerView.HandleAnalyze | components/SimilarCaseAnalyzer.tsx:19-28 | blank facts: the fixed error and no call; otherwise the request begins and the call is issued |
| SimilarCaseAnalyzer.AnalyzerView.AnalysisSettled | components/SimilarCaseAnalyzer.tsx:29-37 | the result or the fixed error is stored and loading is lowered |
| SimilarCaseAnalyzer.AnalyzerView.ShownCards | components/SimilarCaseAnalyzer.tsx:87-89 | no result, no cards; otherwise the cards of the stored cases, one per case in result order |
| CitizenDashboard.MockIgnoresInput | components/CitizenDashboard.tsx:8-48 | the mock analysis never fails, ignores its input, and recommends exactly two lawyers |
| CitizenDashboard.AcceptedAnalysisShowsMock | components/CitizenDashboard.tsx:62-75 | every accepted analysis ends showing the mock result and no error |
| CitizenDashboard.DashboardView.HandleAnalyze | components/CitizenDashboard.tsx:57-67 | blank text: the fixed error and no analysis; otherwise the request begins |
| CitizenDashboard.DashboardView.AnalysisSettled | components/CitizenDashboard.tsx:68-75 | the result or the fixed error is stored and loading is lowered |
| DisputeInputForm.WhitespaceReachesDashboard | components/DisputeInputForm.tsx:61 | every text the dashboard's guard accepts can be submitted when not loading, and so can every non-empty whitespace-only text, which that guard then refuses |
| DisputeInputForm.DisputeForm.FileChosen | components/DisputeInputForm.tsx:15-31 | a plain-text file starts a read; any other choice clears the file name and keeps the typed text |
| DisputeInputForm.DisputeForm.FileLoaded | components/DisputeInputForm.tsx:20-22 | the read replaces the text and sets the file name |
| DisputeInputForm.DisputeForm.HandleSubmit | components/DisputeInputForm.tsx:33-36 | the current text is forwarded unmodified, untrimmed |

## Left out

- The language-model SDK (`generateContent`, `chats.create`, `sendMessage`) is not modelled. Each call is an `Outcome` passed in. `JSON.parse` is a parameter, and the parsed value is taken to have the declared type.
- `getSummary`, `getSuggestedNextSteps`, `getSimilarCases`, `monitorForBias`, `generateLegalDraft` and `getAIResearchSummary` are imported from service code that is not part of this model. They are likewise outcomes passed in.
- The missing-API-key check when the service module loads is environment I/O and is left out.
- Chatbot.ChatWindow.OpenSession: session creation always succeeds. A throwing `createChatSession` is not modelled.
- Chatbot.ChatWindow.ReplySettled: a reply whose text is missing is not modelled.
- Model names, temperatures, response MIME types and schema descriptions are constants with no behaviour here. Schemas keep only property names, types and `required` lists.
- Floating point is left out. The relevance score is an exact real, so `score * 100` and `Math.round` carry no IEEE rounding error. The hub's progress-bar width is not modelled.
- Wall-clock time and locale formatting (`new Date()`, `toLocaleTimeString`) are left out. Times are integer milliseconds passed in.
- Browser effects are left out: `FileReader`, `alert`, the clipboard, scrolling, and the mock delays. A completed read is the event `FileLoaded`.
- The 1.5 s typing timer is the event `OnTypingTimer`. The model does not measure how long a timer has been pending.
- Overlapping async handlers are not modelled (summary and suggestions racing in the chat, a second click while loading). Each view has one request in flight.
- Rendering, icons, CSS and translation lookup are left out. Labels are kept as translation keys.
- Browser form validation (`required` on inputs) is left out. Only the handlers' own guards are modelled.
- CaseFiling.LinksToShow: the lookup is over the table's own keys only. A case type named like an inherited object property (such as "constructor") is not modelled.
- AIResearchHub: the unused `mockRagResult` constant (components/AIResearchHub.tsx:15-21) is left out, since the handler calls the RAG search itself.
- CitizenDashboard.DashboardView.AnalysisSettled: the mock never fails, so the failure branch is kept only for the general lifecycle.
- Interleaving within the research hub's single run is not modelled. `AIResearchHub.HubView.Run` takes the three outcomes in order.
- Case requests, chat messages and the other records are modelled with the fields the seed data and the components use.

## Findings

| source | as written | input that shows it | evidently intended | confidence | as-written member | corrected member |
|---|---|---|---|---|---|---|
| components/CaseChat.tsx:40-50 | the effect raises the typing indicator and starts a 1.5 s timer when the last message is the other party's. When the messages change again, the cleanup clears that timer, and a run whose last message is the current user's neither lowers the indicator nor starts a timer. | the other party sends a message, then the current user replies within 1.5 s: "typing…" stays up although the current user has the last word | the indicator is shown only while the other party has the last word, and is always lowered by a pending timer or by the next change | not executed | CaseChat.TypingIndicatorSticks | CaseChat.OnMessagesChangedFixed |
