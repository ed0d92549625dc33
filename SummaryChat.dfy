/** The document summary and chat page (src/app/components/doc-summary-chat/
    doc-summary-chat.component.ts): loads a document's summary, regenerates
    it and polls for the new text, and runs a question-and-answer chat.

    Service calls are not modelled: what a call would send is returned by
    the method that makes it, and what comes back is the argument of the
    callback method. Timers, scrolling and the snackbar are left out. */
module SummaryChat {
  import opened JsStrings
  import opened ChatMessages

  const BotSender: string := "Montreal Bot"
  const ApologyText: string := "Desculpe, ocorreu um erro ao processar sua pergunta. "
    + "Por favor, tente novamente."
  const NoIdError: string := "ID do documento não encontrado."
  const LoadFailedError: string := "Não foi possível carregar " + "o resumo do documento."
  const RegeneratingText: string := "Gerando novo resumo, " + "aguarde alguns instantes..."
  const RegenerateFailedError: string := "Não foi possível regerar o resumo. " + "Tente novamente."
  const FailedSummaryText: string := "Falha ao atualizar o resumo."

  /** The poll makes at most this many fetches (one every 2 s for 60 s). */
  const MaxAttempts: nat := 30

  const MinInputHeight: nat := 48
  const MaxInputHeight: nat := 160

  function Greeting(): ChatMessage {
    ChatMessage(BotSender, GreetingText, None)
  }

  function Apology(): ChatMessage {
    ChatMessage(BotSender, ApologyText, None)
  }

  /** `!!this.documentId`: null and the empty string both count as missing. */
  predicate HasId(id: Option<string>) {
    id.Some? && id.value != ""
  }

  // ---------------------------------------------------------------------------
  // The poll for a regenerated summary

  /** What one poll attempt's summary fetch gave. */
  datatype FetchOutcome = Fetched(summary: string) | FetchFailed

  /** A failed fetch is read as the old summary. */
  function Observed(oldSummary: string, o: FetchOutcome): (s: string)
    ensures o.FetchFailed? ==> s == oldSummary
  {
    if o.Fetched? then o.summary else oldSummary
  }

  /** The poll's filter: a new, non-empty summary. */
  predicate Accepts(oldSummary: string, s: string) {
    s != oldSummary && s != ""
  }

  predicate AcceptedAt(oldSummary: string, outcomes: seq<FetchOutcome>, i: nat)
    requires i < |outcomes|
  {
    Accepts(oldSummary, Observed(oldSummary, outcomes[i]))
  }

  datatype PollVerdict = NewSummary(summary: string) | GaveUp | Waiting

  /** The poll after the given outcomes, with `budget` attempts left. */
  function PollFrom(oldSummary: string, budget: nat, outcomes: seq<FetchOutcome>): (r: PollVerdict)
    ensures r.NewSummary? ==> budget > 0 && |outcomes| > 0 && Accepts(oldSummary, r.summary)
    ensures r.GaveUp? ==> budget <= |outcomes|
    ensures r.Waiting? ==> |outcomes| < budget
    decreases |outcomes|
  {
    if budget == 0 then GaveUp
    else if |outcomes| == 0 then Waiting
    else
      var seen := Observed(oldSummary, outcomes[0]);
      if Accepts(oldSummary, seen) then NewSummary(seen)
      else PollFrom(oldSummary, budget - 1, outcomes[1..])
  }

  /** The verdict of a fresh poll after the given outcomes. */
  function Poll(oldSummary: string, outcomes: seq<FetchOutcome>): PollVerdict {
    PollFrom(oldSummary, MaxAttempts, outcomes)
  }

  /** The poll takes the first accepted outcome among its first `budget`;
      it gives up exactly when `budget` outcomes came and none was accepted,
      and is still waiting when fewer came and none was accepted. */
  lemma {:induction false} PollFromIsFirstAccepted(oldSummary: string, budget: nat, outcomes: seq<FetchOutcome>)
    ensures match PollFrom(oldSummary, budget, outcomes)
      case NewSummary(t) =>
        exists i :: 0 <= i < budget && i < |outcomes| && AcceptedAt(oldSummary, outcomes, i)
          && t == Observed(oldSummary, outcomes[i])
          && forall j :: 0 <= j < i ==> !AcceptedAt(oldSummary, outcomes, j)
      case GaveUp =>
        budget <= |outcomes| && forall i :: 0 <= i < budget ==> !AcceptedAt(oldSummary, outcomes, i)
      case Waiting =>
        |outcomes| < budget && forall i :: 0 <= i < |outcomes| ==> !AcceptedAt(oldSummary, outcomes, i)
    decreases |outcomes|
  {
    if budget == 0 || |outcomes| == 0 {
    } else if AcceptedAt(oldSummary, outcomes, 0) {
      assert 0 < budget && 0 < |outcomes|;
    } else {
      var rest := outcomes[1..];
      PollFromIsFirstAccepted(oldSummary, budget - 1, rest);
      forall i | 0 <= i < |rest|
        ensures AcceptedAt(oldSummary, rest, i) == AcceptedAt(oldSummary, outcomes, i + 1)
      {
        assert rest[i] == outcomes[i + 1];
      }
      match PollFrom(oldSummary, budget - 1, rest)
      case NewSummary(t) =>
        var i :| 0 <= i < budget - 1 && i < |rest| && AcceptedAt(oldSummary, rest, i)
          && t == Observed(oldSummary, rest[i])
          && forall j :: 0 <= j < i ==> !AcceptedAt(oldSummary, rest, j);
        assert forall j :: 0 <= j < i + 1 ==> !AcceptedAt(oldSummary, outcomes, j) by {
          forall j | 0 <= j < i + 1
            ensures !AcceptedAt(oldSummary, outcomes, j)
          {
            if j > 0 {
              assert !AcceptedAt(oldSummary, rest, j - 1);
            }
          }
        }
        assert AcceptedAt(oldSummary, outcomes, i + 1) && t == Observed(oldSummary, outcomes[i + 1]);
      case GaveUp =>
        forall i | 0 <= i < budget
          ensures !AcceptedAt(oldSummary, outcomes, i)
        {
          if i > 0 {
            assert !AcceptedAt(oldSummary, rest, i - 1);
          }
        }
      case Waiting =>
        forall i | 0 <= i < |outcomes|
          ensures !AcceptedAt(oldSummary, outcomes, i)
        {
          if i > 0 {
            assert !AcceptedAt(oldSummary, rest, i - 1);
          }
        }
    }
  }

  /** A decided poll stays decided: outcomes after the verdict do not
      change it, so the failure branch never follows a success. */
  lemma {:induction false} VerdictIsFinal(oldSummary: string, budget: nat, outcomes: seq<FetchOutcome>, later: seq<FetchOutcome>)
    requires !PollFrom(oldSummary, budget, outcomes).Waiting?
    ensures PollFrom(oldSummary, budget, outcomes + later) == PollFrom(oldSummary, budget, outcomes)
    decreases |outcomes|
  {
    if budget > 0 && |outcomes| > 0 {
      assert (outcomes + later)[0] == outcomes[0];
      assert (outcomes + later)[1..] == outcomes[1..] + later;
      if !Accepts(oldSummary, Observed(oldSummary, outcomes[0])) {
        VerdictIsFinal(oldSummary, budget - 1, outcomes[1..], later);
      }
    }
  }

  /** Failed fetches alone never replace the summary: after 30 of them the
      poll gives up. */
  lemma FailuresGiveUp(oldSummary: string, outcomes: seq<FetchOutcome>)
    requires |outcomes| >= MaxAttempts
    requires forall i :: 0 <= i < |outcomes| ==> outcomes[i] == FetchFailed
    ensures Poll(oldSummary, outcomes) == GaveUp
  {
    PollFromIsFirstAccepted(oldSummary, MaxAttempts, outcomes);
  }

  // ---------------------------------------------------------------------------
  // The component's state and its operations

  /** A poll in progress: the summary it must see replaced and the number
      of fetches it has made. */
  datatype PollRun = PollRun(oldSummary: string, attempts: nat)

  datatype ChatState = ChatState(
    documentId: Option<string>,
    messages: seq<ChatMessage>,
    newMessage: string,
    isLoading: bool,
    isChatFullscreen: bool,
    summaryText: string,
    summaryError: Option<string>,
    confirmRegenerateModalOpen: bool,
    isRegeneratingSummary: bool,
    regenerateError: Option<string>,
    regenerateRequest: Option<string>,   // summary to replace, while the regenerate call is out
    poll: Option<PollRun>)               // `pollSubscription`, while it runs

  /** A poll and a regenerate call only exist while regenerating, never
      both, and a running poll has attempts left. */
  predicate ValidChat(s: ChatState) {
    (s.poll.Some? ==> s.isRegeneratingSummary && s.regenerateRequest.None?
                      && s.poll.value.attempts < MaxAttempts)
    && (s.regenerateRequest.Some? ==> s.isRegeneratingSummary)
  }

  function InitialChat(): (s: ChatState)
    ensures ValidChat(s)
  {
    ChatState(None, [], "", false, false, "", None, false, false, None, None, None)
  }

  /** The summary fetch `loadSummary` issues, if any. */
  function SummaryRequest(s: ChatState): Option<string> {
    if HasId(s.documentId) then s.documentId else None
  }

  /** `loadSummary()` up to the fetch. */
  function AfterLoadSummary(s: ChatState): ChatState {
    if !HasId(s.documentId) then s.(summaryText := "", summaryError := Some(NoIdError))
    else s.(summaryError := None, summaryText := "")
  }

  function AfterSummaryLoaded(s: ChatState, data: string): ChatState {
    s.(summaryText := data)
  }

  function AfterSummaryFailed(s: ChatState): ChatState {
    s.(summaryText := "", summaryError := Some(LoadFailedError))
  }

  /** `ngOnInit()`: reads the route's `id`, loads the summary, greets. */
  function AfterInit(s: ChatState, routeId: Option<string>): ChatState {
    var loaded := AfterLoadSummary(s.(documentId := routeId));
    loaded.(messages := loaded.messages + [Greeting()])
  }

  function AfterOpenModal(s: ChatState): ChatState {
    s.(regenerateError := None, confirmRegenerateModalOpen := true)
  }

  function AfterCloseModal(s: ChatState): ChatState {
    if s.isRegeneratingSummary then s else s.(confirmRegenerateModalOpen := false)
  }

  /** `confirmRegenerateSummary()` up to the regenerate call. */
  function AfterConfirm(s: ChatState): ChatState {
    if !HasId(s.documentId) || s.isRegeneratingSummary then s
    else s.(isRegeneratingSummary := true, regenerateError := None,
            regenerateRequest := Some(s.summaryText), summaryText := RegeneratingText)
  }

  /** `pollForSummaryUpdate(oldSummary)`. */
  function AfterPollStart(s: ChatState, oldSummary: string): ChatState {
    if !HasId(s.documentId) then s else s.(poll := Some(PollRun(oldSummary, 0)))
  }

  /** The regenerate call answered or failed: both start the poll. */
  function AfterRegenerateSettled(s: ChatState): ChatState {
    match s.regenerateRequest
    case None => s
    case Some(oldSummary) => AfterPollStart(s.(regenerateRequest := None), oldSummary)
  }

  /** `finishRegeneration(success)`, which also ends the poll. */
  function AfterFinish(s: ChatState, success: bool): ChatState {
    var done := s.(isRegeneratingSummary := false, poll := None);
    if success then done.(confirmRegenerateModalOpen := false)
    else done.(regenerateError := Some(RegenerateFailedError), summaryText := FailedSummaryText)
  }

  /** One poll attempt delivering its outcome; the attempt that uses up the
      budget also completes the stream. */
  function AfterTick(s: ChatState, o: FetchOutcome): ChatState {
    match s.poll
    case None => s
    case Some(run) =>
      var seen := Observed(run.oldSummary, o);
      if Accepts(run.oldSummary, seen) then AfterFinish(s.(summaryText := seen), true)
      else if run.attempts + 1 < MaxAttempts then s.(poll := Some(run.(attempts := run.attempts + 1)))
      else if s.isRegeneratingSummary then AfterFinish(s, false)
      else s.(poll := None)
  }

  function Ticks(s: ChatState, outcomes: seq<FetchOutcome>): ChatState
    decreases |outcomes|
  {
    if |outcomes| == 0 then s else Ticks(AfterTick(s, outcomes[0]), outcomes[1..])
  }

  function AfterDestroy(s: ChatState): ChatState {
    s.(poll := None)
  }

  /** The chat request `sendMessage` issues: document id and prompt. */
  function ChatRequest(s: ChatState): Option<(string, string)> {
    if IsBlank(s.newMessage) || !HasId(s.documentId) then None
    else Some((s.documentId.value, s.newMessage))
  }

  /** `sendMessage()` up to the request. */
  function AfterSend(s: ChatState): ChatState {
    if IsBlank(s.newMessage) || !HasId(s.documentId) then s
    else s.(messages := s.messages + [UserMessage(s.newMessage)], newMessage := "", isLoading := true)
  }

  /** `onEnter(event)`: Shift+Enter keeps the default (a new line). */
  function AfterEnter(s: ChatState, shiftKey: bool): ChatState {
    if shiftKey || IsBlank(s.newMessage) || s.isLoading || !HasId(s.documentId) then s
    else AfterSend(s)
  }

  function AfterReply(s: ChatState, reply: ChatMessage): ChatState {
    s.(messages := s.messages + [reply], isLoading := false)
  }

  function AfterReplyFailed(s: ChatState): ChatState {
    s.(messages := s.messages + [Apology()], isLoading := false)
  }

  function AfterToggleFullscreen(s: ChatState): ChatState {
    s.(isChatFullscreen := !s.isChatFullscreen)
  }

  /** `autoResize`: the height it leaves is the content height capped at
      160 px; the 48 px it sets first is overwritten. */
  function AutoResizeHeight(scrollHeight: nat): (h: nat)
    ensures h <= scrollHeight && h <= MaxInputHeight
    ensures h == scrollHeight || h == MaxInputHeight
  {
    if scrollHeight < MaxInputHeight then scrollHeight else MaxInputHeight
  }

  /** Everything that can happen to the page, user actions and callbacks. */
  datatype ChatAction =
    | Init(routeId: Option<string>)
    | LoadSummary
    | SummaryLoaded(data: string)
    | SummaryFailed
    | OpenModal
    | CloseModal
    | Confirm
    | RegenerateSettled
    | Tick(outcome: FetchOutcome)
    | Destroy
    | Type(text: string)
    | Enter(shiftKey: bool)
    | Send
    | Reply(reply: ChatMessage)
    | ReplyFailed
    | ToggleFullscreen

  function ApplyChat(s: ChatState, a: ChatAction): ChatState {
    match a
    case Init(routeId) => AfterInit(s, routeId)
    case LoadSummary => AfterLoadSummary(s)
    case SummaryLoaded(data) => AfterSummaryLoaded(s, data)
    case SummaryFailed => AfterSummaryFailed(s)
    case OpenModal => AfterOpenModal(s)
    case CloseModal => AfterCloseModal(s)
    case Confirm => AfterConfirm(s)
    case RegenerateSettled => AfterRegenerateSettled(s)
    case Tick(o) => AfterTick(s, o)
    case Destroy => AfterDestroy(s)
    case Type(text) => s.(newMessage := text)
    case Enter(shiftKey) => AfterEnter(s, shiftKey)
    case Send => AfterSend(s)
    case Reply(reply) => AfterReply(s, reply)
    case ReplyFailed => AfterReplyFailed(s)
    case ToggleFullscreen => AfterToggleFullscreen(s)
  }

  // ---------------------------------------------------------------------------
  // Properties

  /** Without a document id nothing is fetched and the fixed error shows. */
  lemma LoadWithoutId(s: ChatState)
    requires !HasId(s.documentId)
    ensures SummaryRequest(s) == None
    ensures AfterLoadSummary(s).summaryText == "" && AfterLoadSummary(s).summaryError == Some(NoIdError)
  {
  }

  /** With an id, the summary is fetched for it after clearing text and
      error; success shows the text with no error, failure the fixed error
      with an empty text. */
  lemma LoadWithId(s: ChatState, data: string)
    requires HasId(s.documentId)
    ensures SummaryRequest(s) == Some(s.documentId.value)
    ensures var r := AfterSummaryLoaded(AfterLoadSummary(s), data);
      r.summaryText == data && r.summaryError == None
    ensures var r := AfterSummaryFailed(AfterLoadSummary(s));
      r.summaryText == "" && r.summaryError == Some(LoadFailedError)
  {
  }

  /** On a fresh page, initialisation leaves exactly the greeting. */
  lemma InitGreets(routeId: Option<string>)
    ensures AfterInit(InitialChat(), routeId).messages == [Greeting()]
    ensures AfterInit(InitialChat(), routeId).messages[0].sender == "Montreal Bot"
    ensures SummaryRequest(InitialChat().(documentId := routeId)).Some? <==> HasId(routeId)
  {
  }

  /** A blank input or a missing id sends nothing; Enter never sends with
      Shift held, nor while a reply is awaited. */
  lemma SendGuards(s: ChatState, shiftKey: bool)
    ensures IsBlank(s.newMessage) || !HasId(s.documentId) ==> AfterSend(s) == s && ChatRequest(s) == None
    ensures shiftKey || s.isLoading ==> AfterEnter(s, shiftKey) == s
    ensures !shiftKey && !s.isLoading ==> AfterEnter(s, shiftKey) == AfterSend(s)
  {
  }

  /** A send appends the typed text as the user's message, clears the input
      and waits; the reply, or else the apology, is appended after it and
      the wait ends. Earlier messages are untouched. */
  lemma SendThenResolve(s: ChatState, reply: ChatMessage)
    requires !IsBlank(s.newMessage) && HasId(s.documentId)
    ensures var sent := AfterSend(s);
      sent.messages == s.messages + [UserMessage(s.newMessage)]
      && sent.newMessage == "" && sent.isLoading
      && ChatRequest(s) == Some((s.documentId.value, s.newMessage))
    ensures AfterReply(AfterSend(s), reply).messages == s.messages + [UserMessage(s.newMessage), reply]
    ensures AfterReplyFailed(AfterSend(s)).messages == s.messages + [UserMessage(s.newMessage), Apology()]
    ensures !AfterReply(AfterSend(s), reply).isLoading && !AfterReplyFailed(AfterSend(s)).isLoading
  {
  }

  /** The message list only grows, by at most one message per action. */
  lemma MessagesAppendOnly(s: ChatState, a: ChatAction)
    ensures var r := ApplyChat(s, a);
      |s.messages| <= |r.messages| <= |s.messages| + 1 && r.messages[..|s.messages|] == s.messages
  {
    var r := ApplyChat(s, a);
    if a.Init? {
      var loaded := AfterLoadSummary(s.(documentId := a.routeId));
      assert loaded.messages == s.messages;
    }
  }

  /** Confirming does nothing without an id or while regenerating;
      otherwise it shows the placeholder and remembers the summary it
      must see replaced. The modal cannot be closed while regenerating. */
  lemma ConfirmStartsRegeneration(s: ChatState)
    ensures !HasId(s.documentId) || s.isRegeneratingSummary ==> AfterConfirm(s) == s
    ensures HasId(s.documentId) && !s.isRegeneratingSummary ==>
      var r := AfterConfirm(s);
      r.isRegeneratingSummary && r.summaryText == RegeneratingText
      && r.regenerateRequest == Some(s.summaryText) && r.regenerateError == None
    ensures s.isRegeneratingSummary ==> AfterCloseModal(s) == s
  {
  }

  /** Whether the regenerate call answers or fails, the poll starts from
      the summary shown before confirming. */
  lemma ConfirmThenPoll(s: ChatState)
    requires HasId(s.documentId) && !s.isRegeneratingSummary
    ensures AfterRegenerateSettled(AfterConfirm(s)).poll == Some(PollRun(s.summaryText, 0))
    ensures ValidChat(AfterRegenerateSettled(AfterConfirm(s)))
  {
  }

  /** A closed poll ignores every later outcome. */
  lemma {:induction false} TicksWhenIdle(s: ChatState, outcomes: seq<FetchOutcome>)
    requires s.poll.None?
    ensures Ticks(s, outcomes) == s
    decreases |outcomes|
  {
    if |outcomes| > 0 {
      TicksWhenIdle(s, outcomes[1..]);
    }
  }

  /** The component's poll follows the poll verdict: the first accepted
      summary is shown and the modal closed; exhaustion shows the failure
      texts; otherwise the poll counts its attempts. */
  lemma {:induction false} TicksFollowPoll(s: ChatState, outcomes: seq<FetchOutcome>)
    requires s.poll.Some? && s.poll.value.attempts < MaxAttempts && s.isRegeneratingSummary
    ensures var run := s.poll.value;
      match PollFrom(run.oldSummary, MaxAttempts - run.attempts, outcomes)
      case NewSummary(t) => Ticks(s, outcomes) == AfterFinish(s.(summaryText := t), true)
      case GaveUp => Ticks(s, outcomes) == AfterFinish(s, false)
      case Waiting => Ticks(s, outcomes) == s.(poll := Some(run.(attempts := run.attempts + |outcomes|)))
    decreases |outcomes|
  {
    var run := s.poll.value;
    if |outcomes| > 0 {
      var next := AfterTick(s, outcomes[0]);
      var seen := Observed(run.oldSummary, outcomes[0]);
      if Accepts(run.oldSummary, seen) {
        TicksWhenIdle(next, outcomes[1..]);
      } else if run.attempts + 1 < MaxAttempts {
        TicksFollowPoll(next, outcomes[1..]);
        assert next.(poll := Some(run.(attempts := run.attempts + 1 + |outcomes[1..]|)))
            == s.(poll := Some(run.(attempts := run.attempts + |outcomes|)));
      } else {
        TicksWhenIdle(next, outcomes[1..]);
        assert PollFrom(run.oldSummary, MaxAttempts - run.attempts - 1, outcomes[1..]) == GaveUp;
      }
    }
  }

  /** From a fresh poll: a new summary within 30 outcomes ends the
      regeneration successfully; 30 outcomes without one end it with the
      failure texts. */
  lemma PollOutcome(s: ChatState, oldSummary: string, outcomes: seq<FetchOutcome>)
    requires s.poll == Some(PollRun(oldSummary, 0)) && s.isRegeneratingSummary
    ensures Poll(oldSummary, outcomes).NewSummary? ==>
      var r := Ticks(s, outcomes);
      r.summaryText == Poll(oldSummary, outcomes).summary && Accepts(oldSummary, r.summaryText)
      && !r.isRegeneratingSummary && !r.confirmRegenerateModalOpen && r.poll.None?
    ensures Poll(oldSummary, outcomes).GaveUp? ==>
      var r := Ticks(s, outcomes);
      r.summaryText == FailedSummaryText && r.regenerateError == Some(RegenerateFailedError)
      && !r.isRegeneratingSummary && r.poll.None?
  {
    TicksFollowPoll(s, outcomes);
    PollFromIsFirstAccepted(oldSummary, MaxAttempts, outcomes);
  }

  /** Every action keeps the poll and the regenerate call consistent. */
  lemma ApplyKeepsValid(s: ChatState, a: ChatAction)
    requires ValidChat(s)
    ensures ValidChat(ApplyChat(s, a))
  {
  }

  lemma ToggleFullscreenTwice(s: ChatState)
    ensures AfterToggleFullscreen(AfterToggleFullscreen(s)) == s
    ensures AfterToggleFullscreen(s).isChatFullscreen != s.isChatFullscreen
  {
  }

  /** The 48 px minimum is not kept: short content gets a shorter box. */
  lemma AutoResizeKeepsNoFloor()
    ensures AutoResizeHeight(20) < MinInputHeight
    ensures AutoResizeHeight(500) == MaxInputHeight
  {
  }

  // ---------------------------------------------------------------------------
  // The component

  class DocSummaryChatComponent {
    var documentId: Option<string>
    var messages: seq<ChatMessage>
    var newMessage: string
    var isLoading: bool
    var isChatFullscreen: bool
    var summaryText: string
    var summaryError: Option<string>
    var confirmRegenerateModalOpen: bool
    var isRegeneratingSummary: bool
    var regenerateError: Option<string>
    var regenerateRequest: Option<string>
    var poll: Option<PollRun>

    function State(): ChatState
      reads this
    {
      ChatState(documentId, messages, newMessage, isLoading, isChatFullscreen, summaryText,
                summaryError, confirmRegenerateModalOpen, isRegeneratingSummary, regenerateError,
                regenerateRequest, poll)
    }

    constructor ()
      ensures State() == InitialChat()
    {
      documentId := None;
      messages := [];
      newMessage := "";
      isLoading := false;
      isChatFullscreen := false;
      summaryText := "";
      summaryError := None;
      confirmRegenerateModalOpen := false;
      isRegeneratingSummary := false;
      regenerateError := None;
      regenerateRequest := None;
      poll := None;
    }

    /** Returns the id whose summary is fetched, if any. */
    method NgOnInit(routeId: Option<string>) returns (summaryFetch: Option<string>)
      modifies this
      ensures State() == AfterInit(old(State()), routeId)
      ensures summaryFetch == SummaryRequest(old(State()).(documentId := routeId))
    {
      documentId := routeId;
      summaryFetch := LoadSummary();
      messages := messages + [Greeting()];
    }

    method NgOnDestroy()
      modifies this`poll
      ensures State() == AfterDestroy(old(State()))
    {
      if poll.Some? {
        poll := None;
      }
    }

    method LoadSummary() returns (summaryFetch: Option<string>)
      modifies this`summaryText, this`summaryError
      ensures State() == AfterLoadSummary(old(State()))
      ensures summaryFetch == SummaryRequest(old(State()))
    {
      if documentId.None? || documentId.value == "" {
        summaryText := "";
        summaryError := Some(NoIdError);
        return None;
      }
      summaryError := None;
      summaryText := "";
      summaryFetch := documentId;
    }

    method OnSummaryLoaded(data: string)
      modifies this`summaryText
      ensures State() == AfterSummaryLoaded(old(State()), data)
    {
      summaryText := data;
    }

    method OnSummaryFailed()
      modifies this`summaryText, this`summaryError
      ensures State() == AfterSummaryFailed(old(State()))
    {
      summaryText := "";
      summaryError := Some(LoadFailedError);
    }

    method OpenConfirmRegenerateModal()
      modifies this`regenerateError, this`confirmRegenerateModalOpen
      ensures State() == AfterOpenModal(old(State()))
    {
      regenerateError := None;
      confirmRegenerateModalOpen := true;
    }

    method CloseConfirmRegenerateModal()
      modifies this`confirmRegenerateModalOpen
      ensures State() == AfterCloseModal(old(State()))
    {
      if isRegeneratingSummary {
        return;
      }
      confirmRegenerateModalOpen := false;
    }

    /** Returns the id the regenerate call is made for, if any. */
    method ConfirmRegenerateSummary() returns (regenerateCall: Option<string>)
      modifies this
      ensures State() == AfterConfirm(old(State()))
      ensures regenerateCall.Some? <==> HasId(old(documentId)) && !old(isRegeneratingSummary)
    {
      if documentId.None? || documentId.value == "" || isRegeneratingSummary {
        return None;
      }
      isRegeneratingSummary := true;
      regenerateError := None;
      var oldSummary := summaryText;
      summaryText := RegeneratingText;
      regenerateRequest := Some(oldSummary);
      regenerateCall := documentId;
    }

    /** The `next` and the `error` callback of the regenerate call. */
    method OnRegenerateSettled()
      modifies this
      ensures State() == AfterRegenerateSettled(old(State()))
    {
      if regenerateRequest.Some? {
        var oldSummary := regenerateRequest.value;
        regenerateRequest := None;
        PollForSummaryUpdate(oldSummary);
      }
    }

    method PollForSummaryUpdate(oldSummary: string)
      modifies this`poll
      ensures State() == AfterPollStart(old(State()), oldSummary)
    {
      if documentId.None? || documentId.value == "" {
        return;
      }
      poll := Some(PollRun(oldSummary, 0));
    }

    /** One poll attempt: the filter, `take(1)` and the completion after
        `take(30)`. */
    method OnPollAttempt(o: FetchOutcome)
      modifies this
      ensures State() == AfterTick(old(State()), o)
    {
      if poll.None? {
        return;
      }
      var run := poll.value;
      var seen := Observed(run.oldSummary, o);
      if seen != run.oldSummary && seen != "" {
        summaryText := seen;
        FinishRegeneration(true);
      } else if run.attempts + 1 < MaxAttempts {
        poll := Some(run.(attempts := run.attempts + 1));
      } else if isRegeneratingSummary {
        FinishRegeneration(false);
      } else {
        poll := None;
      }
    }

    /** Delivers the poll's outcomes one attempt after another. */
    method RunPoll(outcomes: seq<FetchOutcome>)
      modifies this
      ensures State() == Ticks(old(State()), outcomes)
    {
      ghost var start := State();
      for i := 0 to |outcomes|
        invariant State() == Ticks(start, outcomes[..i])
      {
        OnPollAttempt(outcomes[i]);
        TicksSnoc(start, outcomes[..i], outcomes[i]);
        assert outcomes[..i + 1] == outcomes[..i] + [outcomes[i]];
      }
      assert outcomes[..|outcomes|] == outcomes;
    }

    method FinishRegeneration(success: bool)
      modifies this
      ensures State() == AfterFinish(old(State()), success)
    {
      isRegeneratingSummary := false;
      if success {
        confirmRegenerateModalOpen := false;
      } else {
        regenerateError := Some(RegenerateFailedError);
        summaryText := FailedSummaryText;
      }
      if poll.Some? {
        poll := None;
      }
    }

    method ToggleChatFullscreen()
      modifies this`isChatFullscreen
      ensures State() == AfterToggleFullscreen(old(State()))
    {
      isChatFullscreen := !isChatFullscreen;
    }

    /** Returns the height the text area is left with. */
    method AutoResize(scrollHeight: nat) returns (height: nat)
      ensures height == AutoResizeHeight(scrollHeight)
    {
      height := MinInputHeight;
      height := if scrollHeight < MaxInputHeight then scrollHeight else MaxInputHeight;
    }

    method SetNewMessage(text: string)
      modifies this`newMessage
      ensures State() == old(State()).(newMessage := text)
    {
      newMessage := text;
    }

    /** Returns whether the key's default action is prevented, and the chat
        request made, if any. */
    method OnEnter(shiftKey: bool) returns (preventDefault: bool, chatCall: Option<(string, string)>)
      modifies this
      ensures State() == AfterEnter(old(State()), shiftKey)
      ensures preventDefault == !shiftKey
      ensures chatCall == if shiftKey || old(isLoading) then None else ChatRequest(old(State()))
    {
      if shiftKey {
        return false, None;
      }
      preventDefault := true;
      if IsBlank(newMessage) || isLoading || documentId.None? || documentId.value == "" {
        return preventDefault, None;
      }
      chatCall := SendMessage();
    }

    method SendMessage() returns (chatCall: Option<(string, string)>)
      modifies this
      ensures State() == AfterSend(old(State()))
      ensures chatCall == ChatRequest(old(State()))
    {
      if IsBlank(newMessage) || documentId.None? || documentId.value == "" {
        return None;
      }
      messages := messages + [UserMessage(newMessage)];
      var currentMessage := newMessage;
      newMessage := "";
      isLoading := true;
      chatCall := Some((documentId.value, currentMessage));
    }

    method OnChatReply(reply: ChatMessage)
      modifies this`messages, this`isLoading
      ensures State() == AfterReply(old(State()), reply)
    {
      messages := messages + [reply];
      isLoading := false;
    }

    method OnChatError()
      modifies this`messages, this`isLoading
      ensures State() == AfterReplyFailed(old(State()))
    {
      messages := messages + [Apology()];
      isLoading := false;
    }
  }

  lemma {:induction false} TicksSnoc(s: ChatState, outcomes: seq<FetchOutcome>, o: FetchOutcome)
    ensures Ticks(s, outcomes + [o]) == AfterTick(Ticks(s, outcomes), o)
    decreases |outcomes|
  {
    if |outcomes| == 0 {
      assert [o][1..] == [];
    } else {
      assert (outcomes + [o])[1..] == outcomes[1..] + [o];
      TicksSnoc(AfterTick(s, outcomes[0]), outcomes[1..], o);
    }
  }
}
