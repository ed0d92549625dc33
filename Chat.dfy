/** The older chat panel (src/app/features/document-analysis/ui/chat/
    chat.component.ts): the same send-and-reply cycle as the summary page,
    with no document-id guard and no error handler. */
module Chat {
  import opened JsStrings
  import opened ChatMessages

  const AiSender: string := "IA"

  function AiGreeting(): ChatMessage {
    ChatMessage(AiSender, GreetingText, None)
  }

  datatype PanelState = PanelState(
    documentId: Option<string>,
    messages: seq<ChatMessage>,
    newMessage: string,
    isLoading: bool)

  /** The chat request `sendMessage` makes: the id as it is, null included,
      and the untrimmed prompt. */
  function PanelRequest(s: PanelState): Option<(Option<string>, string)> {
    if IsBlank(s.newMessage) then None else Some((s.documentId, s.newMessage))
  }

  function AfterPanelSend(s: PanelState): PanelState {
    if IsBlank(s.newMessage) then s
    else s.(messages := s.messages + [UserMessage(s.newMessage)], newMessage := "", isLoading := true)
  }

  function AfterPanelReply(s: PanelState, reply: ChatMessage): PanelState {
    s.(messages := s.messages + [reply], isLoading := false)
  }

  /** A blank input sends nothing; any other input is sent even without a
      document id, appended as the user's message, and the input cleared. */
  lemma PanelSend(s: PanelState)
    ensures IsBlank(s.newMessage) ==> AfterPanelSend(s) == s && PanelRequest(s) == None
    ensures !IsBlank(s.newMessage) ==>
      var r := AfterPanelSend(s);
      r.messages == s.messages + [UserMessage(s.newMessage)] && r.newMessage == "" && r.isLoading
      && PanelRequest(s) == Some((s.documentId, s.newMessage))
  {
  }

  /** A null id is forwarded to the chat service. */
  lemma NullIdForwarded(text: string)
    requires !IsBlank(text)
    ensures PanelRequest(PanelState(None, [], text, false)) == Some((None, text))
  {
  }

  /** The reply is appended after the user's message and the wait ends; a
      failed request has no handler, so until a reply comes the panel keeps
      waiting with only the user's message added. */
  lemma PanelSendThenReply(s: PanelState, reply: ChatMessage)
    requires !IsBlank(s.newMessage)
    ensures AfterPanelReply(AfterPanelSend(s), reply).messages
            == s.messages + [UserMessage(s.newMessage), reply]
    ensures !AfterPanelReply(AfterPanelSend(s), reply).isLoading
    ensures AfterPanelSend(s).isLoading && |AfterPanelSend(s).messages| == |s.messages| + 1
  {
  }

  class ChatComponent {
    var documentId: Option<string>
    var messages: seq<ChatMessage>
    var newMessage: string
    var isLoading: bool

    function State(): PanelState
      reads this
    {
      PanelState(documentId, messages, newMessage, isLoading)
    }

    /** `documentId` is an input binding set by the parent page. */
    constructor (documentId: Option<string>)
      ensures State() == PanelState(documentId, [], "", false)
    {
      this.documentId := documentId;
      messages := [];
      newMessage := "";
      isLoading := false;
    }

    method NgOnInit()
      modifies this`messages
      ensures messages == old(messages) + [AiGreeting()]
    {
      messages := messages + [AiGreeting()];
    }

    method SendMessage() returns (chatCall: Option<(Option<string>, string)>)
      modifies this`messages, this`newMessage, this`isLoading
      ensures State() == AfterPanelSend(old(State()))
      ensures chatCall == PanelRequest(old(State()))
    {
      if IsBlank(newMessage) {
        return None;
      }
      messages := messages + [UserMessage(newMessage)];
      var currentMessage := newMessage;
      newMessage := "";
      isLoading := true;
      chatCall := Some((documentId, currentMessage));
    }

    method OnChatReply(reply: ChatMessage)
      modifies this`messages, this`isLoading
      ensures State() == AfterPanelReply(old(State()), reply)
    {
      messages := messages + [reply];
      isLoading := false;
    }
  }

  /** A fresh panel shows one greeting, from "IA". */
  method GreetingScenario(id: Option<string>) returns (greeted: seq<ChatMessage>)
    ensures |greeted| == 1 && greeted[0].sender == "IA" && greeted[0].text == GreetingText
  {
    var c := new ChatComponent(id);
    c.NgOnInit();
    greeted := c.messages;
  }
}
