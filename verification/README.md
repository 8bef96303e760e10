# Mentorship and strategic tools screens — a Dafny model

This project models the deterministic logic behind two screens of a startup-support web
app. Both are React components.

- **The mentorship screen** (`components/MentorshipPage.tsx`) has two parts.
  - The AI mentor chat. The user picks a persona and a response style and starts a session. A
    simulated two-second sync then seeds the transcript with a greeting. After that the user
    exchanges messages with a mentor gateway.
  - The mentor directory. It filters a fixed list of mentors by specialty chip and search text.
- **The strategic tools screen** (`components/ToolsPage.tsx`). The user opens one of the
  catalog's tools and fills in its form. The screen sends the form to that tool's AI
  generator and shows the result.

Each handler is a pure function over an immutable state record. An `async` handler is split
at its `await`:

- `Send`/`Resolve` for the chat, and `Generate`/`Resolve` for the tools.
- The gateway's answer is a parameter of the second half: `Reply` for the chat, `Outcome`
  for the tools.
- The session start's `setTimeout` is split the same way into `StartBegin` and
  `StartComplete`. The values the timer callback closes over are carried in a `SyncTimer`.

Two trace modules (`AiSessionTrace` and `ToolsTrace`) describe which events the rendered
screen allows at each moment. They prove invariants over every sequence of such events.

| module | file | what it holds |
|---|---|---|
| `Wrappers` | wrappers.dfy | `Option` |
| `JsText` | js_text.dfy | JavaScript `trim` and `includes` |
| `AiMentorConfig` | ai_mentor_config.dfy | the persona and style tables |
| `MentorDirectory` | mentor_directory.dfy | the mock mentors and the directory filter |
| `AiSession` | ai_session.dfy | the chat's state and handlers |
| `AiSessionTrace` | ai_session_trace.dfy | the chat as the screen lets a user drive it |
| `ToolRegistry` | tool_registry.dfy | tool identifiers and the catalog table |
| `ToolForms` | tool_forms.dfy | the per-tool form records and the business-plan inputs |
| `ToolDispatch` | tool_dispatch.dfy | routing, payloads and the generation lifecycle |
| `ToolsTrace` | tools_trace.dfy | the tools screen as a user can drive it |

## Behaviour to note

- **No stale-reply check.** The handlers keep no session epoch and no tool token. A reply
  that arrives after a reset, or after the user switched tools, is still written to the
  transcript or stored as the result.
  - `AiSessionTrace.StaleReplyAfterReset` shows this for the chat after a reset.
  - `AiSessionTrace.StaleReplyInNewSession` shows it for the chat in a new session.
  - `ToolsTrace.StaleResultInOtherTool` shows it for the tools.
- **No loading guard in the handler.** `handleGenerate` has no loading guard. Only the
  disabled button (components/ToolsPage.tsx:261) prevents a second call. So the guard
  appears in `ToolsTrace.Enabled` and not in `ToolDispatch.Generate`.
- **The persona prompt is never sent.** The persona table holds a system prompt for each
  persona, but the send handler (components/MentorshipPage.tsx:110) passes only the persona
  label and the style label to the gateway. `MentorRequest` carries just those two labels.
- **Reset keeps the input.** Reset (components/MentorshipPage.tsx:321) closes the session and
  empties the transcript. It keeps the input buffer, the selection and the flags.
- **The catalog offers 6 of the 12 tool kinds.** The `ToolID` type has 12 kinds, but the
  catalog lists only 6 of them, and CV is not among them. Only catalog tools can be opened.
  A CV generation therefore cannot happen on the screen; `ToolDispatch.Generate` still
  models it: no call, no result, loading off.

## Model

| member | source | states |
|---|---|---|
| JsText.TrimStart | components/MentorshipPage.tsx:102-103 | The result is a suffix of the input. Everything removed before it is whitespace, and the result does not start with whitespace. |
| JsText.TrimEnd | components/MentorshipPage.tsx:102-103 | The result is a prefix of the input. Everything removed after it is whitespace, and the result does not end with whitespace. |
| JsText.Trim | components/MentorshipPage.tsx:102-103 | Defined by its body as trimming the start and then the end; see `TrimMeetsSpec` and `TrimSpecUnique` for what it yields. |
| JsText.TrimMeetsSpec | components/MentorshipPage.tsx:102-103 | The trimmed message is the slice of the input that remains after removing a leading and a trailing run of whitespace. It neither starts nor ends with whitespace. |
| JsText.TrimSpecUnique | components/MentorshipPage.tsx:102-103 | Only one string is a trim of a given input. So the reference definition determines the message that is sent. |
| JsText.TrimEmptyIff | components/MentorshipPage.tsx:102 | The guard's trimmed input is empty exactly when the input is empty or whitespace only. |
| JsText.TrimIdempotent | components/MentorshipPage.tsx:103 | Trimming an already trimmed message changes nothing. |
| JsText.Includes | components/MentorshipPage.tsx:122-123 | Defined by its body as a scan of every start position; see `IncludesIff`. |
| JsText.IncludesIff | components/MentorshipPage.tsx:122-123 | The substring search succeeds exactly when the needle occurs at some position of the haystack. |
| JsText.IncludesSlice | components/MentorshipPage.tsx:122-123 | Every slice of a string is found by the substring search. |
| AiMentorConfig.PersonaTableComplete | components/MentorshipPage.tsx:21-26 | The persona table lists each of the four personas exactly once. |
| AiMentorConfig.PersonaKeysDistinct | components/MentorshipPage.tsx:21-26 | Persona ids are pairwise distinct. So are persona labels, so the label sent to the gateway identifies the persona. |
| AiMentorConfig.StyleTableComplete | components/MentorshipPage.tsx:28-32 | The style table lists each of the three styles exactly once. |
| AiMentorConfig.StyleKeysDistinct | components/MentorshipPage.tsx:28-32 | Style ids and style labels are pairwise distinct. |
| MentorDirectory.MatchesSpecialty | components/MentorshipPage.tsx:121 | Defined by its body: the chip is `all` or equals the mentor's specialty; see `ChipsOnMockDirectory`. |
| MentorDirectory.MatchesSearch | components/MentorshipPage.tsx:122-123 | Defined by its body: the lowered query is in the lowered name or the lowered role; see `FilterShowsAll`. |
| MentorDirectory.Keeps | components/MentorshipPage.tsx:124 | Defined by its body as both tests together; see `FilterMentors`. |
| MentorDirectory.FilterMentors | components/MentorshipPage.tsx:119-126 | The shown list is an order-preserving subsequence of the input. It holds only mentors that pass both the specialty test and the search test. It holds every mentor that passes both, as many times as it occurs in the input. |
| MentorDirectory.FilteredMentors | components/MentorshipPage.tsx:119-126 | A mentor is shown exactly when it is in the mock list and both tests pass, in the list's order. |
| MentorDirectory.FilterAppend | components/MentorshipPage.tsx:120-125 | The filter decides each mentor on its own: filtering a concatenation concatenates the filtered parts. |
| MentorDirectory.FilterIdempotent | components/MentorshipPage.tsx:119-126 | Filtering the shown list again with the same chip and query changes nothing. |
| MentorDirectory.FilterShowsAll | components/MentorshipPage.tsx:119-126 | With the `all` chip and an empty query, every mentor is shown in order. |
| MentorDirectory.FilterPairEmptyQuery | components/MentorshipPage.tsx:119-126 | With an empty query, the chip alone decides which of two mentors are shown, in order. |
| MentorDirectory.ChipsOnMockDirectory | components/MentorshipPage.tsx:119-126 | With an empty query, the Growth chip shows only the first mock mentor and the Tech chip only the second. Finance, Legal and Strategy show nobody. |
| AiSession.SelectPersona | components/MentorshipPage.tsx:222 | Defined by its body; see `PersonaPickKeepsSession` and `AiSessionTrace.SelectionFrozenOutsideConfiguration`. |
| AiSession.SelectStyle | components/MentorshipPage.tsx:249 | Defined by its body; see `StylePickKeepsSession` and `AiSessionTrace.SelectionFrozenOutsideConfiguration`. |
| AiSession.SetInput | components/MentorshipPage.tsx:362 | Defined by its body; see `TypingKeepsSession` and `SecondSendRejected`. |
| AiSession.PersonaPickKeepsSession | components/MentorshipPage.tsx:222 | Picking a persona sets the persona. Style, input, session flags and transcript are untouched. |
| AiSession.StylePickKeepsSession | components/MentorshipPage.tsx:249 | Picking a style sets the style. Persona, input, session flags and transcript are untouched. |
| AiSession.TypingKeepsSession | components/MentorshipPage.tsx:362 | Typing sets the input. Selection, session flags and transcript are untouched. |
| AiSession.ProjectName | components/MentorshipPage.tsx:96 | The greeting's project name is never empty. It is the user's startup name when one is present and non-empty, otherwise the default. |
| AiSession.Greeting | components/MentorshipPage.tsx:96 | Defined by its body as the fixed template around the three values; see `GreetingMentions` and `GreetingIncludes`. |
| AiSession.GreetingMentions | components/MentorshipPage.tsx:96 | The greeting quotes the persona label, the project name and the style label at the offsets fixed by the template. |
| AiSession.GreetingIncludes | components/MentorshipPage.tsx:96 | The greeting contains each of the persona label, the project name and the style label. |
| AiSession.StartBegin | components/MentorshipPage.tsx:85-89 | Pressing start sets syncing and changes nothing else. The armed timer captures the selection and project name of that moment. |
| AiSession.StartComplete | components/MentorshipPage.tsx:90-98 | The timer opens the session and ends syncing. It replaces the transcript, whatever it held, with the single greeting built from the captured selection. Selection, input and submitting are kept. |
| AiSession.StartOpensSession | components/MentorshipPage.tsx:85-98 | A full start yields one AI turn that mentions the selected persona label, the project name and the selected style label. |
| AiSession.CanSend | components/MentorshipPage.tsx:102 | Defined by its body as the send guard; see `Send` and `TrimEmptyIff`. |
| AiSession.Send | components/MentorshipPage.tsx:101-107 | A blank input or a send in flight leaves everything unchanged and makes no call. Otherwise the input is cleared and submitting is set. Exactly one user turn holding the trimmed text is appended, earlier turns are kept, and one request carries the text and both labels. |
| AiSession.ReplyText | components/MentorshipPage.tsx:111-113 | A non-empty answer is shown as it is. An empty answer becomes the fixed fallback text, and a failure becomes the fixed connection-error text. The result is never empty. |
| AiSession.Resolve | components/MentorshipPage.tsx:109-116 | Exactly one AI turn is appended to whatever the transcript holds, and submitting ends. Everything else is kept, including the session staying open after a failure. |
| AiSession.SendAppendsTrimmed | components/MentorshipPage.tsx:102-105 | An accepted send makes a request, clears the input and appends exactly the trimmed input as one user turn. |
| AiSession.ExchangeAppendsTwoTurns | components/MentorshipPage.tsx:101-116 | An accepted send followed by its resolution adds exactly the user turn and then the AI turn, in that order. |
| AiSession.SecondSendRejected | components/MentorshipPage.tsx:102-106 | While a send is in flight, a second send is rejected whatever is typed in between. |
| AiSession.BlankInputNeverSent | components/MentorshipPage.tsx:102 | Empty or whitespace-only input never produces a request and changes nothing. |
| AiSession.Reset | components/MentorshipPage.tsx:321 | Reset closes the session and empties the transcript. It keeps persona, style, input, syncing and submitting. |
| AiSessionTrace.InitialInv | components/MentorshipPage.tsx:71-76 | The initial page satisfies the page invariant. |
| AiSessionTrace.StepPreservesInv | components/MentorshipPage.tsx:85-117 | Every enabled event preserves the invariant. Never started and syncing together; syncing exactly while the timer is armed; the timer matches the current selection; an open transcript starts with the current greeting. |
| AiSessionTrace.RunPreservesInv | components/MentorshipPage.tsx:85-117 | Every enabled sequence of events preserves the invariant. |
| AiSessionTrace.TranscriptOpensWithCurrentGreeting | components/MentorshipPage.tsx:90-97 | However the screen is driven, an open transcript starts with the greeting for the persona and style selected now. |
| AiSessionTrace.SelectionFrozenOutsideConfiguration | components/MentorshipPage.tsx:192-202 | Outside the configuration screen, no enabled event changes the persona or the style. |
| AiSessionTrace.SendThenReset | components/MentorshipPage.tsx:321 | Resetting right after a send returns to configuration with an empty transcript while the send is still in flight. |
| AiSessionTrace.StartAgain | components/MentorshipPage.tsx:85-98 | Starting again from configuration opens a session whose transcript is the greeting alone. A send in flight stays in flight. |
| AiSessionTrace.ReplyAfterGreeting | components/MentorshipPage.tsx:111 | A reply arriving in a session that holds only its greeting becomes the second turn. |
| AiSessionTrace.StaleReplyAfterReset | components/MentorshipPage.tsx:110-111 | Send, reset, then reply: the reply lands in the emptied transcript of a closed session. |
| AiSessionTrace.StaleReplyInNewSession | components/MentorshipPage.tsx:110-111 | Send, reset, start, timer, then reply: the old reply becomes the second turn of the new session, with no question before it. |
| ToolRegistry.ToolKey | components/ToolsPage.tsx:22 | Defined by its body, one identifier per kind; see `ToolKeyRoundTrip`. |
| ToolRegistry.ParseToolKey | components/ToolsPage.tsx:22 | Defined by its body; see `ToolKeyRoundTrip`. |
| ToolRegistry.ToolKeyRoundTrip | components/ToolsPage.tsx:22 | Parsing a tool's identifier gives back the tool. Only the twelve identifiers parse. |
| ToolRegistry.FindIndex | components/ToolsPage.tsx:212 | The lookup finds the first catalog entry for the tool, or reports that none exists. |
| ToolRegistry.FindMeta | components/ToolsPage.tsx:212 | The open tool's title comes from its catalog entry when it has one. |
| ToolRegistry.CatalogIds | components/ToolsPage.tsx:35-96 | The catalog has six entries for six distinct tools, in display order. |
| ToolRegistry.CatalogContents | components/ToolsPage.tsx:35-96 | A tool has a catalog entry exactly when it is one of those six. The other kinds, CV among them, can never be opened. |
| ToolForms.FormOf | components/ToolsPage.tsx:126 | Defined by its body as the open tool's record; see `FormOfTool`. |
| ToolForms.Fields | components/ToolsPage.tsx:104-116 | Defined by its body as the record's fields in declaration order; see `InitialFormsBlank` and `ToolDispatch.BuildCall`. |
| ToolForms.FormOfTool | components/ToolsPage.tsx:104-116 | Every tool except CV has exactly one form record, tagged with that tool. |
| ToolForms.InitialFormsBlank | components/ToolsPage.tsx:104-116 | Initially every field of every form is empty, except the market form's location (the Saudi/Gulf default) and target (`B2C`). |
| ToolForms.UpdateFullPlan | components/ToolsPage.tsx:222-248 | Editing a business-plan input sets that input. Every other business-plan input and every other tool's record is unchanged. |
| ToolForms.UpdatesCommute | components/ToolsPage.tsx:222-248 | Edits to different inputs commute, and a later edit of the same input overrides an earlier one. |
| ToolDispatch.GeneratorFor | components/ToolsPage.tsx:128-145 | Defined by its body, one generator per branch of the dispatch chain; see `RoutingIsBijective`. |
| ToolDispatch.RoutingIsBijective | components/ToolsPage.tsx:126-145 | Every tool except CV calls exactly one generator. Each generator is called by exactly one tool, and CV calls none. |
| ToolDispatch.Vision3yr | components/ToolsPage.tsx:139 | Defined by its body as the template; see `VisionRoundTrip` and `FullPlanPayloadFields`. |
| ToolDispatch.FullPlanPayload | components/ToolsPage.tsx:133-140 | Defined by its body; see `FullPlanPayloadFields`. |
| ToolDispatch.VisionRoundTrip | components/ToolsPage.tsx:139 | The merged `vision3yr` field loses nothing beyond the boundary. Given the market part's length, both inputs are recovered, empty ones included. A successful split merges back to the same text. |
| ToolDispatch.FullPlanPayloadFields | components/ToolsPage.tsx:133-140 | The business-plan payload passes name, industry, problem, solution and competitors unchanged. It sets `vision3yr` to exactly `"Market: " + targetMarket + ", Revenue: " + revenueModel` and has no separate target-market or revenue-model field. |
| ToolDispatch.BuildCall | components/ToolsPage.tsx:126-145 | CV makes no call. Any other tool calls its own generator. The payload is the tool's own form record unchanged, except for the business plan's merged payload. |
| ToolDispatch.CallIgnoresOtherForms | components/ToolsPage.tsx:126-145 | Editing the business-plan form does not change any other tool's call. |
| ToolDispatch.OpenTool | components/ToolsPage.tsx:189 | Opening a tool sets the active tool. Loading, result and forms are kept. |
| ToolDispatch.EditFullPlan | components/ToolsPage.tsx:222-248 | An edit shows the new value and leaves every other tool's form, the active tool, loading and the result unchanged. |
| ToolDispatch.Generate | components/ToolsPage.tsx:118-126 | With no active tool, nothing changes. Otherwise the result is cleared. A tool other than CV sets loading and makes exactly its own call. CV makes no call and ends with loading off. |
| ToolDispatch.Resolve | components/ToolsPage.tsx:147-154 | Success stores the value as the result with no alert. Failure keeps the result and raises the one fixed alert. Loading is off either way, and the active tool and forms are kept. |
| ToolDispatch.GenerationCycle | components/ToolsPage.tsx:118-154 | A full generation makes one call. Afterwards the result holds the value, or on failure is empty with the alert. Loading is off at the end. |
| ToolDispatch.Back | components/ToolsPage.tsx:165 | With a tool open, back returns to the catalog and clears the result, keeping forms and loading. With no tool open, it leaves the screen. |
| ToolsTrace.InitialInv | components/ToolsPage.tsx:99-101 | The initial page satisfies the invariant. |
| ToolsTrace.StepPreservesInv | components/ToolsPage.tsx:118-155 | Every enabled event preserves the invariant. A call is in flight exactly while loading, no result is shown while loading, and only catalog tools are open. |
| ToolsTrace.ReachableInv | components/ToolsPage.tsx:118-155 | Every reachable page satisfies the invariant. |
| ToolsTrace.GenerateMakesOneCall | components/ToolsPage.tsx:259-261 | On a reachable page, an enabled generate button finds no call in flight and makes exactly the open tool's call. |
| ToolsTrace.FailureShowsNothing | components/ToolsPage.tsx:149-153 | On a reachable page, a failed generation leaves no result shown and ends loading. |
| ToolsTrace.StaleResultInOtherTool | components/ToolsPage.tsx:147 | Generate, back, then open another tool: the first tool's answer is shown under the other tool. |

## Left out

- Rendering, CSS (the catalog cards' colours included), icons, the persona, style and tool descriptions, and the persona system prompts are left out. They are presentation data, or data no handler reads.
- Sounds, the clipboard copy and the scroll effect are left out. These are side effects with nothing to state. The failure `alert` is modelled only as the alert text `ToolDispatch.Resolve` returns.
- The gateway functions are not part of this model. They appear only as the outcome passed to each `Resolve`.
- The two-second duration of the sync timer is left out. Only the order of `StartBegin` and `StartComplete` is modelled.
- Real concurrency is left out. Events are interleaved one at a time in the trace modules.
- One React race is left out: pressing Enter twice within a single render, before `isSubmitting` re-renders. Each event sees the previous event's state.
- Any string function stands in for `toLowerCase` (the filter takes it as a parameter). Unicode case mapping is not modelled.
- `Includes` and `Trim` work on Unicode scalar values, not UTF-16 code units. Every character `trim` strips lies in the Basic Multilingual Plane.
- The screen's tab state is left out. This covers the mentorship tabs, the directory's modals, the mentor request and register flows, and the business-plan result tabs. None of it belongs to the modelled logic.
- The directory's search box and chip state are parameters of the filter.
- The catalog's back button when no tool is open calls the parent's `onBack`. This is modelled as `LeavePage`. `ToolsTrace` stops at that point, so `ToolsTrace.Enabled` allows back only inside an open tool.
- Result display formatting, the copy-to-clipboard serialisation and the result-tab placeholder texts are left out.
- The forms of tools other than the business plan have no inputs on screen, so only the business-plan edit handlers are modelled.
