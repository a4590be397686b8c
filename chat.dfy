/**
 * The chat view (ChatView in App.tsx): a message list, the text being typed
 * and a loading flag, and the send handler that moves between them. The
 * chat service is a parameter: a function from the request it is sent to
 * its reply or its failure.
 */
module Chat {
  import opened Wrappers
  import opened Text
  import opened Arrays

  datatype Role = User | Model

  datatype ChatMessage = ChatMessage(role: Role, text: string)

  /** What the chat service is asked: the earlier history, the new message and the view's topic. */
  datatype ChatRequest = ChatRequest(history: seq<ChatMessage>, message: string, topic: string)

  /** How the service call settles: with a reply text, or by throwing. */
  datatype ChatReply = Reply(text: string) | ChatFailure

  /** The fixed model message shown when the service call throws. */
  const ChatErrorText: string := "متاسفانه خطایی رخ داد."

  /** The one model message appended once the service call settles: the reply, or the fixed error text. */
  function ModelReply(reply: ChatReply): (m: ChatMessage)
    ensures m.role == Model
    ensures reply.Reply? ==> m.text == reply.text
    ensures reply.ChatFailure? ==> m.text == ChatErrorText
  {
    match reply
    case Reply(text) => ChatMessage(Model, text)
    case ChatFailure => ChatMessage(Model, ChatErrorText)
  }

  /**
   * The history filter's test: `role !== 'user' || text.trim() !== ''`. It
   * drops exactly the user messages made only of white space.
   */
  function KeptForApi(m: ChatMessage): (b: bool)
    ensures b <==> m.role == Model || !IsBlank(m.text)
  {
    m.role != User || Trim(m.text) != ""
  }

  /**
   * The messages passed on to the service, in order, after the filter (the
   * role/text copy is the identity): no blank user message is sent, and
   * every other message is.
   */
  function HistoryForApi(msgs: seq<ChatMessage>): (h: seq<ChatMessage>)
    ensures |h| <= |msgs|
    ensures forall m :: m in h <==> m in msgs && (m.role == Model || !IsBlank(m.text))
  {
    forall m ensures m in Filter(msgs, KeptForApi) <==> m in msgs && KeptForApi(m) {
      FilterMembers(msgs, KeptForApi, m);
    }
    Filter(msgs, KeptForApi)
  }

  /**
   * The history sent with a new message that passes the filter is the
   * filtered earlier history: appending the message and then dropping the
   * last element of the filtered list cancel out.
   */
  lemma HistoryBeforeSend(msgs: seq<ChatMessage>, sent: ChatMessage)
    requires KeptForApi(sent)
    ensures DropLast(HistoryForApi(msgs + [sent])) == HistoryForApi(msgs)
  {
    FilterAppend(msgs, [sent], KeptForApi);
    assert HistoryForApi([sent]) == [sent];
  }

  /**
   * The shape every list of messages built by sends has: user and model
   * messages alternate, starting with a user message whose text is not blank.
   */
  predicate IsConversation(msgs: seq<ChatMessage>) {
    && |msgs| % 2 == 0
    && (forall i :: 0 <= i < |msgs| ==> (msgs[i].role == User <==> i % 2 == 0))
    && (forall i :: 0 <= i < |msgs| && msgs[i].role == User ==> Trim(msgs[i].text) != "")
  }

  /** In a conversation the filter removes nothing: the whole history is sent. */
  lemma ConversationSentWhole(msgs: seq<ChatMessage>)
    requires IsConversation(msgs)
    ensures HistoryForApi(msgs) == msgs
  {
    FilterKeepsAll(msgs, KeptForApi);
  }

  /** A send (a user message that is not blank, then a model message) keeps the shape. */
  lemma ConversationExtend(msgs: seq<ChatMessage>, sent: string, answer: string)
    requires IsConversation(msgs) && Trim(sent) != ""
    ensures IsConversation(msgs + [ChatMessage(User, sent), ChatMessage(Model, answer)])
  {
    var ext := msgs + [ChatMessage(User, sent), ChatMessage(Model, answer)];
    forall i | 0 <= i < |ext|
      ensures (ext[i].role == User <==> i % 2 == 0)
      ensures ext[i].role == User ==> Trim(ext[i].text) != ""
    {
      if i < |msgs| {
        assert ext[i] == msgs[i];
      } else if i == |msgs| {
        assert ext[i] == ChatMessage(User, sent);
      } else {
        assert ext[i] == ChatMessage(Model, answer);
      }
    }
  }

  /**
   * One mounted chat. Its title and topic are props: the four chat views
   * render it unkeyed in the same place, so moving between them gives the
   * same instance new props and keeps its state.
   */
  class ChatView {
    var title: string
    var topic: string
    var messages: seq<ChatMessage>
    var userInput: string
    var isLoading: bool

    constructor (title: string, topic: string)
      ensures this.title == title && this.topic == topic
      ensures messages == [] && userInput == "" && !isLoading
      ensures Valid()
    {
      this.title := title;
      this.topic := topic;
      messages := [];
      userInput := "";
      isLoading := false;
    }

    predicate Valid()
      reads this
    {
      IsConversation(messages)
    }

    /**
     * A re-render with other props (another chat view chosen in the
     * sidebar): the title and topic change, while the messages, the typed
     * text and the loading flag carry over, so the next send goes out with
     * the new topic and the old conversation as its history.
     */
    method ReceiveProps(title: string, topic: string)
      modifies this`title, this`topic
      ensures this.title == title && this.topic == topic
      ensures old(Valid()) ==> Valid()
    {
      this.title := title;
      this.topic := topic;
    }

    /** The input field's change handler. */
    method SetUserInput(value: string)
      modifies this`userInput
      ensures userInput == value
    {
      userInput := value;
    }

    /**
     * The form's submit handler, run to completion as one transition: the
     * user message is appended, the input cleared, the service asked, and
     * exactly one model message appended whether the call succeeds or fails.
     * The request sent is returned, or None when the send is refused.
     */
    method HandleSendMessage(getChatResponse: ChatRequest -> ChatReply) returns (request: Option<ChatRequest>)
      modifies this`messages, this`userInput, this`isLoading
      ensures Trim(old(userInput)) == "" || old(isLoading) ==>
        && request == None
        && messages == old(messages) && userInput == old(userInput) && isLoading == old(isLoading)
      ensures Trim(old(userInput)) != "" && !old(isLoading) ==>
        && request == Some(ChatRequest(HistoryForApi(old(messages)), old(userInput), topic))
        && messages == old(messages) + [
             ChatMessage(User, old(userInput)),
             ModelReply(getChatResponse(request.value))
           ]
        && userInput == ""
        && !isLoading
      ensures old(Valid()) ==> Valid()
      ensures old(Valid()) && request.Some? ==> request.value.history == old(messages)
    {
      if Trim(userInput) == "" || isLoading {
        return None;
      }

      var sent := ChatMessage(User, userInput);
      var newMessages := messages + [sent];
      messages := newMessages;
      var input := userInput;
      userInput := "";
      isLoading := true;

      var historyForApi := HistoryForApi(newMessages);
      HistoryBeforeSend(old(messages), sent);
      var req := ChatRequest(DropLast(historyForApi), input, topic);
      var reply := ModelReply(getChatResponse(req));
      messages := messages + [reply];
      assert [sent] + [reply] == [sent, reply];
      assert messages == old(messages) + ([sent] + [reply]);
      if old(Valid()) {
        ConversationExtend(old(messages), input, reply.text);
        ConversationSentWhole(old(messages));
      }
      isLoading := false;
      request := Some(req);
    }
  }
}
