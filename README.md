# LLMontreal front end: a verified model of its component logic

This project models the deterministic core of the LLMontreal Angular
client in Dafny and proves what that core promises. The client uploads
documents, shows a document's AI summary and a chat about it, and handles
sign-in, the theme and a dashboard. The model covers the following:

- **Upload component.** It checks a file against a five-type allow-list and a 25 MiB limit, starts the upload at once, and follows the upload's progress, response, error and cancellation. Each HTTP subscription is a numbered token, so the model can say which callbacks still run.
- **Summary and chat page.** It covers loading the summary, the regenerate-and-poll cycle (at most 30 fetches), and the append-only chat with its Enter-key and loading guards. The older chat panel is modelled beside it.
- **File-type pipe.** It maps MIME types to labels, and the first matching rule wins.
- **Paginator.** The paginator's labels are Portuguese, including its range label "a - b de n".
- **Header.** It decides whether the header shows the search box.
- **Forms.** The login and register forms run their checks in order.
- **Auth interceptor.** It adds a bearer token to outgoing requests.
- **Auth and theme services.** They work over local storage, which is modelled as a map.
- **Dashboard.** It maps document statuses to colours.

Each source file has its own module, written in the file's own form:

- components and services that update fields in place are classes;
- the pure pipe, the label formatter and the interceptor are functions;
- the upload component, both chat components and the theme service each have a pure snapshot (`State()` or `View()`) and one transition function per operation, and each method's contract ties the new state to that function;
- the header, register, login and dashboard components and the auth service state their new field values directly in each method's contract;
- the lemmas state the source's promises about the transition functions.

Shared modules:

- `JsStrings` holds the JavaScript string built-ins the code calls: `toLowerCase`, `includes`, `startsWith`, `trim`, `length` in UTF-16 units, and number formatting.
- `ChatMessages` holds the chat message record.
- `FormChecks` holds the form verdict.
- `BrowserStorage` holds `localStorage`.

Service calls are not modelled. A method that makes a call returns what the call would send. What comes back is the argument of a callback method.

## Model

| member | source | states |
|---|---|---|
| Upload.Validate | src/app/components/upload-document/upload-document.component.ts:79-88 | A file is accepted iff its MIME type is one of the five allowed and its size is at most 25 MiB; the type check decides first (invalid-type message), then the size check ("25MB" message) |
| Upload.Percent | src/app/components/upload-document/upload-document.component.ts:108 | The progress value is `loaded/total*100` rounded half up: `2·total·p − total ≤ 200·loaded < 2·total·p + total` |
| Upload.PercentBounds | src/app/components/upload-document/upload-document.component.ts:106-108 | With 0 ≤ loaded ≤ total and total > 0 the progress lies in 0..100, is 0 for nothing sent and 100 for everything sent |
| Upload.PercentMonotone | src/app/components/upload-document/upload-document.component.ts:106-108 | More bytes sent never shows a smaller percentage |
| Upload.InitialState | src/app/components/upload-document/upload-document.component.ts:23-29 | The component starts IDLE at 0% with "Nenhum arquivo selecionado." and no subscriptions, a valid state |
| Upload.InvalidTypeRejected | src/app/components/upload-document/upload-document.component.ts:79-84 | A type outside the allow-list gives ERROR, the invalid-type message, progress 0 and no file, whatever the size, and opens no subscription |
| Upload.ZipRejected | src/app/components/upload-document/upload-document.component.ts:31-37 | "application/zip" is not allowed, so a ZIP file ends in ERROR |
| Upload.SizeBoundary | src/app/components/upload-document/upload-document.component.ts:38-88 | For an allowed type, 26,214,400 bytes start the upload and 26,214,401 give ERROR with the message that mentions "25MB", with no subscription opened |
| Upload.ValidFileStartsUpload | src/app/components/upload-document/upload-document.component.ts:89-100 | A valid file is kept and the upload starts at once: UPLOADING, 0%, a fresh subscription held in `uploadSub` |
| Upload.ProgressEventSetsPercent | src/app/components/upload-document/upload-document.component.ts:106-108 | A live progress event sets only the progress, to the rounded percentage of `total`, or of the file size when `total` is absent, and within 0..100 when loaded ≤ total |
| Upload.ResponseAndErrorEvents | src/app/components/upload-document/upload-document.component.ts:109-120 | A live response gives SUCCESS, 100% and no file; a live error gives ERROR with the fixed message, 0%, no file, and closes that subscription |
| Upload.EventsOnlyClose | src/app/components/upload-document/upload-document.component.ts:102-121 | HTTP events never open subscriptions |
| Upload.ApplyKeepsValid | src/app/components/upload-document/upload-document.component.ts:95-128 | Every user action and event keeps subscription numbers below the counter, and only newly numbered subscriptions become live |
| Upload.ReleasedStaysReleased | src/app/components/upload-document/upload-document.component.ts:124-128 | A released subscription never runs again under any sequence of actions: each of its later events changes nothing |
| Upload.CancelIsFinal | src/app/components/upload-document/upload-document.component.ts:124-142 | Cancelling gives CANCELLED, 0%, no file, no `uploadSub`, and no later event of the cancelled upload changes the state |
| Upload.DropUsesFirstFile | src/app/components/upload-document/upload-document.component.ts:62-68 | A drop always clears the drag flag, changes nothing else without files, and handles only the first file |
| Upload.CancelMissesReplacedUpload | src/app/components/upload-document/upload-document.component.ts:102-128 | Picking a second valid file during an upload, then cancelling, leaves the first upload live; its response still reports SUCCESS |
| Upload.UploadDocumentComponent.constructor | src/app/components/upload-document/upload-document.component.ts:23-29 | The fields start as the initial state |
| Upload.UploadDocumentComponent.OnDragOver | src/app/components/upload-document/upload-document.component.ts:52-55 | Sets the drag flag |
| Upload.UploadDocumentComponent.OnDragLeave | src/app/components/upload-document/upload-document.component.ts:57-60 | Clears the drag flag |
| Upload.UploadDocumentComponent.OnFileDrop | src/app/components/upload-document/upload-document.component.ts:62-68 | The new state is the drop transition of the old one, and validity is kept |
| Upload.UploadDocumentComponent.OnFileSelected | src/app/components/upload-document/upload-document.component.ts:70-76 | The first picked file is handled, and the input's value is cleared only when a file was picked |
| Upload.UploadDocumentComponent.HandleSelectedFile | src/app/components/upload-document/upload-document.component.ts:78-94 | The new state is the selection transition: the validation error, or the file kept and the upload started |
| Upload.UploadDocumentComponent.UploadFile | src/app/components/upload-document/upload-document.component.ts:95-122 | Without a file nothing changes; otherwise UPLOADING at 0% on a new subscription, and the replaced one is not unsubscribed |
| Upload.UploadDocumentComponent.OnUploadEvent | src/app/components/upload-document/upload-document.component.ts:105-121 | The subscription callbacks as the event transition: only live subscriptions act |
| Upload.UploadDocumentComponent.CancelUpload | src/app/components/upload-document/upload-document.component.ts:124-128 | Releases the held subscription only, clears it, and sets CANCELLED |
| Upload.UploadDocumentComponent.SetError | src/app/components/upload-document/upload-document.component.ts:130-135 | ERROR with the message, progress 0, no file |
| Upload.UploadDocumentComponent.SetCancelled | src/app/components/upload-document/upload-document.component.ts:137-142 | CANCELLED with the message, progress 0, no file |
| Upload.PdfUploadScenario | src/app/components/upload-document/upload-document.component.ts:78-113 | A 1 KiB PDF starts uploading; half the bytes show 50%; the response gives SUCCESS at 100% with the file cleared |
| SummaryChat.Observed | src/app/components/doc-summary-chat/doc-summary-chat.component.ts:125-127 | A failed poll fetch counts as the old summary |
| SummaryChat.PollFrom | src/app/components/doc-summary-chat/doc-summary-chat.component.ts:123-130 | An accepted summary is new and non-empty and came within the attempt budget; the poll gives up only after as many outcomes as its budget, and waits only while fewer have come |
| SummaryChat.PollFromIsFirstAccepted | src/app/components/doc-summary-chat/doc-summary-chat.component.ts:123-141 | The poll takes the first outcome that is new and non-empty among its first 30 attempts; it gives up exactly when 30 came with none accepted, and otherwise waits |
| SummaryChat.VerdictIsFinal | src/app/components/doc-summary-chat/doc-summary-chat.component.ts:128-139 | Once the poll has accepted a summary or given up, later outcomes do not change the verdict |
| SummaryChat.FailuresGiveUp | src/app/components/doc-summary-chat/doc-summary-chat.component.ts:124-127 | Thirty failed fetches make the poll give up |
| SummaryChat.InitialChat | src/app/components/doc-summary-chat/doc-summary-chat.component.ts:21-33 | The page starts with no id, no messages, no summary and no regeneration, a valid state |
| SummaryChat.AutoResizeHeight | src/app/components/doc-summary-chat/doc-summary-chat.component.ts:168-174 | The final height is the minimum of the content height and 160 |
| SummaryChat.LoadWithoutId | src/app/components/doc-summary-chat/doc-summary-chat.component.ts:72-77 | With a null or empty id, no fetch is made, the text is empty and the error is "ID do documento não encontrado." |
| SummaryChat.LoadWithId | src/app/components/doc-summary-chat/doc-summary-chat.component.ts:79-90 | With an id, the summary is fetched for it; success shows the text with no error; failure shows an empty text and the fixed load error |
| SummaryChat.InitGreets | src/app/components/doc-summary-chat/doc-summary-chat.component.ts:45-54 | On a fresh page the only message is the "Montreal Bot" greeting, and the summary is fetched exactly when the route has an id |
| SummaryChat.SendGuards | src/app/components/doc-summary-chat/doc-summary-chat.component.ts:179-196 | A blank input or a missing id sends nothing; Enter never sends with Shift held or while a reply is awaited, and otherwise sends as the send button does |
| SummaryChat.SendThenResolve | src/app/components/doc-summary-chat/doc-summary-chat.component.ts:195-226 | A send appends the untrimmed text as "Você", clears the input, waits, and requests (id, text); the reply or else the apology follows it, the wait ends, and earlier messages are kept |
| SummaryChat.MessagesAppendOnly | src/app/components/doc-summary-chat/doc-summary-chat.component.ts:45-226 | Every action keeps the existing messages as a prefix and adds at most one |
| SummaryChat.ConfirmStartsRegeneration | src/app/components/doc-summary-chat/doc-summary-chat.component.ts:93-118 | Confirming does nothing without an id or while regenerating; otherwise it shows the placeholder, clears the error and keeps the shown summary as the one to replace. Closing the modal does nothing while regenerating |
| SummaryChat.ConfirmThenPoll | src/app/components/doc-summary-chat/doc-summary-chat.component.ts:103-123 | Whether the regenerate call succeeds or fails, the poll starts from the summary shown before confirming |
| SummaryChat.TicksWhenIdle | src/app/components/doc-summary-chat/doc-summary-chat.component.ts:143-161 | Once the poll subscription is gone, no outcome changes the page |
| SummaryChat.TicksFollowPoll | src/app/components/doc-summary-chat/doc-summary-chat.component.ts:120-161 | The page follows the poll verdict: an accepted summary finishes successfully with that text; exhaustion finishes with failure; otherwise only the attempt count grows |
| SummaryChat.PollOutcome | src/app/components/doc-summary-chat/doc-summary-chat.component.ts:120-161 | From a fresh poll, success shows the new summary, closes the modal and clears the flag; exhaustion shows "Falha ao atualizar o resumo." with the regenerate error and clears the flag |
| SummaryChat.ApplyKeepsValid | src/app/components/doc-summary-chat/doc-summary-chat.component.ts:103-161 | A poll and a regenerate call exist only while regenerating, never together, and a running poll has attempts left |
| SummaryChat.ToggleFullscreenTwice | src/app/components/doc-summary-chat/doc-summary-chat.component.ts:163-166 | The fullscreen toggle flips the flag and is an involution |
| SummaryChat.AutoResizeKeepsNoFloor | src/app/components/doc-summary-chat/doc-summary-chat.component.ts:168-174 | The 48 px set first is overwritten: short content gets less than 48, tall content 160 |
| SummaryChat.DocSummaryChatComponent.constructor | src/app/components/doc-summary-chat/doc-summary-chat.component.ts:21-33 | The fields start as the initial state |
| SummaryChat.DocSummaryChatComponent.NgOnInit | src/app/components/doc-summary-chat/doc-summary-chat.component.ts:45-54 | Takes the route id, loads the summary and appends the greeting; returns the fetch made |
| SummaryChat.DocSummaryChatComponent.NgOnDestroy | src/app/components/doc-summary-chat/doc-summary-chat.component.ts:66-70 | Ends the poll |
| SummaryChat.DocSummaryChatComponent.LoadSummary | src/app/components/doc-summary-chat/doc-summary-chat.component.ts:72-91 | The load transition, returning the id fetched, if any |
| SummaryChat.DocSummaryChatComponent.OnSummaryLoaded | src/app/components/doc-summary-chat/doc-summary-chat.component.ts:83-85 | Shows the fetched text |
| SummaryChat.DocSummaryChatComponent.OnSummaryFailed | src/app/components/doc-summary-chat/doc-summary-chat.component.ts:86-89 | Empty text and the fixed load error |
| SummaryChat.DocSummaryChatComponent.OpenConfirmRegenerateModal | src/app/components/doc-summary-chat/doc-summary-chat.component.ts:93-96 | Clears the regenerate error and opens the modal |
| SummaryChat.DocSummaryChatComponent.CloseConfirmRegenerateModal | src/app/components/doc-summary-chat/doc-summary-chat.component.ts:98-101 | Closes the modal unless regenerating |
| SummaryChat.DocSummaryChatComponent.ConfirmRegenerateSummary | src/app/components/doc-summary-chat/doc-summary-chat.component.ts:103-118 | The confirm transition; the regenerate call is made exactly when there is an id and no regeneration is running |
| SummaryChat.DocSummaryChatComponent.OnRegenerateSettled | src/app/components/doc-summary-chat/doc-summary-chat.component.ts:111-117 | Both callbacks of the regenerate call start the poll with the remembered summary |
| SummaryChat.DocSummaryChatComponent.PollForSummaryUpdate | src/app/components/doc-summary-chat/doc-summary-chat.component.ts:120-123 | Starts a poll with no attempts made, if there is an id |
| SummaryChat.DocSummaryChatComponent.OnPollAttempt | src/app/components/doc-summary-chat/doc-summary-chat.component.ts:123-140 | One attempt: accept and finish successfully, count the attempt, or on the 30th finish with failure |
| SummaryChat.DocSummaryChatComponent.RunPoll | src/app/components/doc-summary-chat/doc-summary-chat.component.ts:123-140 | Feeding the outcomes one at a time ends in the state the tick sequence defines |
| SummaryChat.DocSummaryChatComponent.FinishRegeneration | src/app/components/doc-summary-chat/doc-summary-chat.component.ts:143-161 | Clears the flag and ends the poll; success closes the modal, failure sets the regenerate error and the failure text |
| SummaryChat.DocSummaryChatComponent.ToggleChatFullscreen | src/app/components/doc-summary-chat/doc-summary-chat.component.ts:163-164 | Flips fullscreen |
| SummaryChat.DocSummaryChatComponent.AutoResize | src/app/components/doc-summary-chat/doc-summary-chat.component.ts:168-174 | Returns the height the text area is left with |
| SummaryChat.DocSummaryChatComponent.SetNewMessage | src/app/components/doc-summary-chat/doc-summary-chat.component.ts:23 | The input's two-way binding sets only the typed text |
| SummaryChat.DocSummaryChatComponent.OnEnter | src/app/components/doc-summary-chat/doc-summary-chat.component.ts:179-193 | Prevents the default exactly without Shift, and sends only when the guards allow |
| SummaryChat.DocSummaryChatComponent.SendMessage | src/app/components/doc-summary-chat/doc-summary-chat.component.ts:195-211 | The send transition, returning the chat request |
| SummaryChat.DocSummaryChatComponent.OnChatReply | src/app/components/doc-summary-chat/doc-summary-chat.component.ts:212-216 | Appends the reply and ends the wait |
| SummaryChat.DocSummaryChatComponent.OnChatError | src/app/components/doc-summary-chat/doc-summary-chat.component.ts:217-224 | Appends the apology and ends the wait |
| Chat.PanelSend | src/app/features/document-analysis/ui/chat/chat.component.ts:43-50 | Blank input sends nothing; other input is appended as "Você", untrimmed, the input cleared, and sent with the id as it is |
| Chat.NullIdForwarded | src/app/features/document-analysis/ui/chat/chat.component.ts:50 | With no document id the request still goes out, carrying null |
| Chat.PanelSendThenReply | src/app/features/document-analysis/ui/chat/chat.component.ts:46-55 | The reply follows the user's message and ends the wait; before a reply the panel waits with one message added, and nothing handles a failure |
| Chat.ChatComponent.constructor | src/app/features/document-analysis/ui/chat/chat.component.ts:21-25 | The panel starts with the bound id, no messages, empty input, not waiting |
| Chat.ChatComponent.NgOnInit | src/app/features/document-analysis/ui/chat/chat.component.ts:31-36 | Appends the "IA" greeting |
| Chat.ChatComponent.SendMessage | src/app/features/document-analysis/ui/chat/chat.component.ts:43-58 | The send transition, returning the request |
| Chat.ChatComponent.OnChatReply | src/app/features/document-analysis/ui/chat/chat.component.ts:51-55 | Appends the reply and ends the wait |
| Chat.GreetingScenario | src/app/features/document-analysis/ui/chat/chat.component.ts:31-36 | A fresh panel holds exactly one greeting, from "IA" |
| FileTypes.FirstMatch | src/app/pipes/file-type.pipe.ts:12-18 | Finds the first rule that matches, with no earlier rule matching, or reports that none matches |
| FileTypes.SecondSegment | src/app/pipes/file-type.pipe.ts:20-21 | There is a second part exactly when the text holds a '/'; it is then the text after the first '/' up to the next '/' or the end |
| FileTypes.SegmentAtUnique | src/app/pipes/file-type.pipe.ts:20 | `split('/')[1]` names one segment: the first '/' and the part after it are unique |
| FileTypes.Fallback | src/app/pipes/file-type.pipe.ts:20-21 | With no rule matched, the label is the lower-cased text after the first '/' up to the next '/' when that text is non-empty, and otherwise the input as given, which is also the label when the input has no '/' |
| FileTypes.AudioFallsBack | src/app/pipes/file-type.pipe.ts:9-21 | "audio/MPEG" matches no rule and is labelled by its lower-cased subtype "mpeg" |
| FileTypes.Transform | src/app/pipes/file-type.pipe.ts:8-21 | The label is never empty; null, undefined and '' give "Desconhecido" |
| FileTypes.TransformIsFirstMatch | src/app/pipes/file-type.pipe.ts:9-21 | The label is the name of the first rule, in the order PDF, Word, PowerPoint, Planilha, Texto, Imagem (prefix "image/"), JSON, that matches the lower-cased input; with none it is the non-empty lower-cased second path part, else the input itself |
| FileTypes.TransformCaseInsensitive | src/app/pipes/file-type.pipe.ts:9-21 | Inputs equal up to letter case get the same label, except when each is handed back as it is |
| FileTypes.TextShadowsJson | src/app/pipes/file-type.pipe.ts:16-18 | "text/json" is labelled "Texto": the earlier rule wins |
| FileTypes.UpperCasePdf | src/app/pipes/file-type.pipe.ts:9-12 | "APPLICATION/PDF" is labelled "PDF" |
| Paginator.Labels | src/app/app.config.ts:22-26 | The five paginator labels are the fixed Portuguese strings |
| Paginator.RangeEnd | src/app/app.config.ts:31-34 | A page starting inside the list ends at the list's end or one full page after its start, whichever comes first |
| Paginator.RangeLabel | src/app/app.config.ts:27-36 | Every range label starts with a digit and ends with " de " and the list length |
| Paginator.RangeEndBounds | src/app/app.config.ts:31-34 | A page starting inside the list ends after its start, at most one page later and no later than the list; a page past the end is not clamped |
| Paginator.RangeLabelRoundTrip | src/app/app.config.ts:27-35 | The label reads back as "0 de n" when the list or page size is empty, and otherwise as exactly "start+1 - end de n" |
| Paginator.SecondPageOfTen | src/app/app.config.ts:31-34 | On 25 items with pages of 10, pages 1, 2 and 3 end at 20, 25 and 40 |
| Header.ShowSearchCharacterised | src/app/components/header/header.component.ts:34-37 | The search shows iff the url is "/" or begins with "/dashboard", in any letter case |
| Header.ShowSearchIgnoresCase | src/app/components/header/header.component.ts:35 | Urls equal up to letter case decide alike |
| Header.DashboardPathsShowSearch | src/app/components/header/header.component.ts:36 | Anything after a "/dashboard" prefix still shows the search, "/dashboardX" included |
| Header.ShowSearchExamples | src/app/components/header/header.component.ts:34-37 | "/" and "/DASHBOARD" show it; null, "" and "/login" do not |
| Header.ShortPathsHideSearch | src/app/components/header/header.component.ts:36 | A url shorter than "/dashboard" shows it only if it is "/" |
| Header.HeaderComponent.constructor | src/app/components/header/header.component.ts:15-16 | Starts hidden and not listening |
| Header.HeaderComponent.NgOnInit | src/app/components/header/header.component.ts:20-28 | Decides from the current url, then listens for navigation ends |
| Header.HeaderComponent.OnNavigationEnd | src/app/components/header/header.component.ts:25-27 | While listening, decides again from the url after redirects |
| Header.HeaderComponent.NgOnDestroy | src/app/components/header/header.component.ts:30-32 | Stops listening |
| Header.HeaderComponent.UpdateShowSearch | src/app/components/header/header.component.ts:34-37 | Sets the flag from the url |
| Register.RegisterCheck | src/app/components/register/register.component.ts:29-43 | Proceeds iff all four fields are filled, the passwords match and the password has at least 6 UTF-16 units; each refusal message holds exactly when the earlier checks passed and its own failed |
| Register.LengthBoundary | src/app/components/register/register.component.ts:40-43 | A 6-character password passes, a 5-character one gets the minimum-length message |
| Register.AstralPasswordAccepted | src/app/components/register/register.component.ts:40 | The length counts UTF-16 units: three emoji make a long enough password |
| Register.RegisterComponent.constructor | src/app/components/register/register.component.ts:15-22 | All fields empty, nothing loading, passwords hidden |
| Register.RegisterComponent.OnSubmit | src/app/components/register/register.component.ts:29-48 | A refusal sets only its message, with no call and loading unchanged; otherwise loading, message cleared, and register(name, email, password) called |
| Register.RegisterComponent.OnRegistered | src/app/components/register/register.component.ts:49-51 | Success navigates to "/dashboard" |
| Register.RegisterComponent.OnRegisterError | src/app/components/register/register.component.ts:52-55 | Shows the error and stops loading |
| Register.RegisterComponent.OnRegisterComplete | src/app/components/register/register.component.ts:56-58 | Stops loading |
| Register.RegisterComponent.TogglePasswordVisibility | src/app/components/register/register.component.ts:62-64 | Flips the password's visibility |
| Register.RegisterComponent.ToggleConfirmPasswordVisibility | src/app/components/register/register.component.ts:66-68 | Flips the confirmation's visibility |
| Register.ToggleTwice | src/app/components/register/register.component.ts:62-68 | Both toggles are involutions and touch nothing else |
| Login.LoginCheck | src/app/components/login/login.component.ts:27-31 | Proceeds iff both fields are filled, else the fill-all message |
| Login.ReturnTarget | src/app/components/login/login.component.ts:37-39 | The target is the `returnUrl` parameter when present and non-empty, else "/dashboard"; never empty |
| Login.LoginComponent.constructor | src/app/components/login/login.component.ts:15-19 | Empty fields, nothing loading, password hidden |
| Login.LoginComponent.OnSubmit | src/app/components/login/login.component.ts:27-36 | A refusal sets only the message; otherwise loading, message cleared, and login(username, password) called |
| Login.LoginComponent.OnLoggedIn | src/app/components/login/login.component.ts:37-40 | Navigates to the return target |
| Login.LoginComponent.OnLoginError | src/app/components/login/login.component.ts:41-44 | Shows the error and stops loading |
| Login.LoginComponent.OnLoginComplete | src/app/components/login/login.component.ts:45-47 | Stops loading |
| Login.LoginComponent.TogglePasswordVisibility | src/app/components/login/login.component.ts:51-53 | Flips the password's visibility |
| AuthInterceptor.Intercept | src/app/interceptors/auth.interceptor.ts:5-22 | The one request passed on has the original verb, url and body |
| AuthInterceptor.InterceptAddsBearer | src/app/interceptors/auth.interceptor.ts:9-21 | No token (null or '') passes the request unchanged; a token adds "Authorization: Bearer <token>", from which the token reads back, and keeps every other header |
| AuthInterceptor.InterceptIdempotent | src/app/interceptors/auth.interceptor.ts:14-19 | Intercepting twice equals intercepting once |
| AuthInterceptor.InterceptWith | src/app/interceptors/auth.interceptor.ts:5-22 | The interceptor uses the service's stored token |
| AuthInterceptor.RequestAfterLogin | src/app/interceptors/auth.interceptor.ts:6-19 | After a login that returned a token, requests carry "Bearer " and that token |
| Auth.RestoredUser | src/app/services/auth.service.ts:44-47 | The starting user is the stored "currentUser" entry unless it is missing or empty |
| Auth.HandleError | src/app/services/auth.service.ts:102-110 | A client-side error gives "Erro: " and its message; any other gives "Ocorreu um erro inesperado" |
| Auth.HandleErrorReadable | src/app/services/auth.service.ts:102-110 | The message starts with "Erro: " iff the error was client-side, and the client message reads back from it |
| Auth.SessionSurvivesReload | src/app/services/auth.service.ts:63-77 | After a login's storage update the stored user is restored; the token is the new one when one came, else the previous token is kept or stays absent |
| Auth.LogoutForgets | src/app/services/auth.service.ts:95-100 | Logout leaves no user to restore and no token, and keeps every other entry |
| Auth.StoreSessionKeepsOthers | src/app/services/auth.service.ts:67-73 | Sign-in changes only the two session keys |
| Auth.AuthService.constructor | src/app/services/auth.service.ts:40-49 | The service starts with the restored user |
| Auth.AuthService.IsAuthenticated | src/app/services/auth.service.ts:55-57 | True iff there is a current user |
| Auth.AuthService.Token | src/app/services/auth.service.ts:59-61 | The stored "authToken" entry, or null |
| Auth.AuthService.OnAuthenticated | src/app/services/auth.service.ts:67-73 | Stores the user, stores the token only if present and non-empty, and publishes the user |
| Auth.AuthService.Logout | src/app/services/auth.service.ts:95-100 | Removes both keys, clears the user and navigates to "/login" |
| Auth.ReloadAfterLogin | src/app/services/auth.service.ts:40-73 | A service created after a login over the same storage is authenticated as that user |
| Theme.InitialTheme | src/app/services/theme.service.ts:17-33 | The stored non-empty value is taken as it is; otherwise dark iff the system prefers dark, else light |
| Theme.SetThemeConsistent | src/app/services/theme.service.ts:35-44 | After setting t, the theme is t, storage holds t, the body has "dark" iff t is dark, the only key added is the theme key, and no other entry or class changed |
| Theme.SetThemeIdempotent | src/app/services/theme.service.ts:35-44 | Setting the same theme twice equals once |
| Theme.ToggleTwice | src/app/services/theme.service.ts:46-48 | From a consistent light or dark state, toggling changes the theme and toggling twice restores everything |
| Theme.ToggleFromUnknown | src/app/services/theme.service.ts:46-48 | An unchecked stored value that is neither theme toggles to light, then dark |
| Theme.ThemeService.constructor | src/app/services/theme.service.ts:13-15 | Construction sets the initial theme |
| Theme.ThemeService.InitializeTheme | src/app/services/theme.service.ts:17-33 | Sets the theme chosen from storage and the system preference |
| Theme.ThemeService.SetTheme | src/app/services/theme.service.ts:35-44 | The set-theme transition on theme, storage and body classes |
| Theme.ThemeService.ToggleTheme | src/app/services/theme.service.ts:46-48 | Sets dark when light, else light |
| Theme.FreshStart | src/app/services/theme.service.ts:13-33 | On empty storage the theme follows the system preference, is written back, and the body's "dark" class matches it |
| Dashboard.StatusColor | src/app/components/dashboard/dashboard.component.ts:60-71 | The badge is one of the four class strings, and it is the gray one exactly when the status is not "Pronto", "Processando" or "Erro" |
| Dashboard.GreenIsPalette | src/app/components/dashboard/dashboard.component.ts:63 | The green class string is the palette of "green" |
| Dashboard.YellowIsPalette | src/app/components/dashboard/dashboard.component.ts:65 | The yellow class string is the palette of "yellow" |
| Dashboard.RedIsPalette | src/app/components/dashboard/dashboard.component.ts:67 | The red class string is the palette of "red" |
| Dashboard.GrayIsPalette | src/app/components/dashboard/dashboard.component.ts:69 | The gray class string is the palette of "gray" |
| Dashboard.LiteralsArePalettes | src/app/components/dashboard/dashboard.component.ts:62-69 | All four class strings follow the one palette pattern |
| Dashboard.PaletteNamesColour | src/app/components/dashboard/dashboard.component.ts:60-71 | Each badge class string starts with "bg-" followed by the name of its colour |
| Dashboard.StatusColors | src/app/components/dashboard/dashboard.component.ts:60-71 | "Pronto" is green, "Processando" yellow, "Erro" red, anything else gray, and the four class strings are distinct |
| Dashboard.DashboardComponent.constructor | src/app/components/dashboard/dashboard.component.ts:21-45 | The filter starts as "Todos" over the three sample documents |
| Dashboard.DashboardComponent.OnFilterChange | src/app/components/dashboard/dashboard.component.ts:47-50 | Records the filter and nothing else |

## Left out

- HTTP, timers and the DOM are not modelled. Service calls become returned requests and callback methods. The 2000 ms poll interval, `switchMap`'s cancelling of a slow fetch, scrolling, the 48 px textarea resets in `setTimeout`, the snackbar and the window drag handlers are outside the model. Each poll attempt is one outcome.
- Upload.AfterEvent: a progress event whose denominator is 0 is modelled as changing nothing, because JavaScript would store `Infinity` or `NaN`. A progress event without `total` while no file is selected also changes nothing; in the source the handler throws.
- Upload.Percent: `Math.round` on a floating-point quotient is modelled by exact integer rounding, half up. The two can differ where the floating-point quotient is inexact.
- Upload: the end of an upload stream is a separate `Completed` event. The order in which HttpClient delivers the response and the completion is not modelled.
- JsStrings.Lower folds only ASCII letters. `toLowerCase` also folds other letters. No rule keyword of the pipe and no path the header tests can be reached through a non-ASCII letter, but the pipe's fallback label can.
- FileTypes.TransformIsFirstMatch: the fallback label is the second path part with only its ASCII letters lower-cased. For "application/X-Ñ" the pipe shows "x-ñ", but the model gives "x-Ñ".
- FileTypes.TransformCaseInsensitive: covers only inputs that differ in the case of ASCII letters. Two inputs that differ in a non-ASCII capital get the same label from `toLowerCase`, but the model does not promise it.
- JsStrings.NatToString prints every natural number in plain decimal. JavaScript prints numbers of 1e21 and above in exponent form, and page numbers never get that large.
- Auth: `JSON.stringify` and `JSON.parse` are not modelled. The user is kept as its JSON text, and restoring it yields that same text.
- Theme: `matchMedia` is a boolean parameter, and the body's class list is a set held by the service.
- AuthInterceptor.Intercept: headers are a map with case-sensitive names. Angular's `HttpHeaders` compares names case-insensitively.
- SummaryChat: a closed poll subscription and a null `pollSubscription` are the same state. After the 30th attempt the source keeps a reference to a finished subscription, but unsubscribing from it does nothing.
- SummaryChat and Chat: the reply to a chat request is the message the chat service maps it to. The mapping of the author to "Montreal Bot" or "Você" happens in the service, which is not part of this model.
- Dashboard: `onUpload` and `onViewDetails` have empty bodies in the source. The filter choice filters nothing.
