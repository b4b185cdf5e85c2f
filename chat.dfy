/** The chat page (app/chat/page.tsx): a conversation log to which each send adds the
    user's question and then the assistant's answer or an apology naming the error. */
module ChatPage {
  import opened Collections
  import opened Text
  import opened Api

  datatype Role = User | Assistant

  /** One entry of the conversation; the time stamp it carries is not modelled. */
  datatype Message = Message(role: Role, content: string)

  const ApologyPrefix := "Sorry, I encountered an error: "
  const ApologySuffix := ". Please make sure the Azure Function App is running on localhost:7071."

  /** The assistant's entry once the query settles: the answer, or an apology that
      quotes the error message. */
  function AssistantText(outcome: Outcome<ChatResponse>): (t: string)
    ensures outcome.Ok? ==> t == outcome.value.answer
    ensures outcome.Failed? ==> ApologyPrefix + outcome.message <= t
    ensures outcome.Failed? ==> |t| == |ApologyPrefix| + |outcome.message| + |ApologySuffix|
    ensures outcome.Failed? ==> t[|ApologyPrefix| + |outcome.message|..] == ApologySuffix
  {
    match outcome
    case Ok(response) => response.answer
    case Failed(message) => ApologyPrefix + message + ApologySuffix
  }

  /** A failed chat query shows an apology that carries the client's error text. */
  lemma FailedQueryApologizes(reply: Reply<ChatResponse>)
    requires RequestOutcome(reply).Failed?
    ensures ApologyPrefix + ErrorPrefix <= AssistantText(RequestOutcome(reply))
  {
    var m := RequestOutcome(reply).message;
    assert ErrorPrefix <= m;
    assert (ApologyPrefix + m)[..|ApologyPrefix + ErrorPrefix|] == ApologyPrefix + ErrorPrefix;
  }

  /** A successful chat query shows the answer as it came. */
  lemma AnsweredQueryShowsAnswer(status: int, text: string, response: ChatResponse)
    requires IsOkStatus(status)
    ensures AssistantText(RequestOutcome(Response(status, text, response))) == response.answer
  {
  }

  /** The context sent with a question: the content of the last message so far,
      none for the first question. */
  function ContextOf(messages: seq<Message>): (c: Option<string>)
    ensures c.None? <==> messages == []
    ensures c.Some? ==> c.value == messages[|messages| - 1].content
  {
    if |messages| > 0 then Some(messages[|messages| - 1].content) else None
  }

  /** The log alternates: questions at even positions, replies at odd ones. */
  predicate Alternating(messages: seq<Message>) {
    forall i :: 0 <= i < |messages| ==> messages[i].role == (if i % 2 == 0 then User else Assistant)
  }

  /** In a log that alternates and holds whole exchanges, every question after the
      first is sent with the previous reply as its context. */
  lemma ContextIsLastReply(messages: seq<Message>)
    requires Alternating(messages) && |messages| % 2 == 0 && messages != []
    ensures ContextOf(messages).Some?
    ensures messages[|messages| - 1].role == Assistant
  {
    assert (|messages| - 1) % 2 == 1;
  }

  lemma AppendPair(log: seq<Message>, question: Message, answer: Message)
    ensures log + [question] + [answer] == log + [question, answer]
  {
  }

  class ChatSession {
    var messages: seq<Message>
    var inputMessage: string
    var isLoading: bool

    /** Each question is followed by its reply, and a question without a reply yet
        is exactly the time the page is loading. */
    ghost predicate Valid()
      reads this
    {
      Alternating(messages) && (isLoading <==> |messages| % 2 == 1)
    }

    constructor()
      ensures Valid()
      ensures messages == [] && inputMessage == "" && !isLoading
    {
      messages := [];
      inputMessage := "";
      isLoading := false;
    }

    /** Typing into the input box. */
    method SetInput(text: string)
      requires Valid()
      modifies this`inputMessage
      ensures Valid()
      ensures inputMessage == text
    {
      inputMessage := text;
    }

    /** The synchronous half of `handleSendMessage`: nothing happens for a blank input
      or while a reply is pending; otherwise the question joins the log, the input is
      cleared, and the query to send is returned. */
    method BeginSend() returns (query: Option<ChatQuery>)
      requires Valid()
      modifies this
      ensures Valid()
      ensures query.None? <==> Blank(old(inputMessage)) || old(isLoading)
      ensures query.None? ==> unchanged(this)
      ensures query.Some? ==>
                && query.value == ChatQuery(old(inputMessage), ContextOf(old(messages)))
                && messages == old(messages) + [Message(User, old(inputMessage))]
                && inputMessage == "" && isLoading
    {
      TrimEmptyIffBlank(inputMessage);
      if Trim(inputMessage) == "" || isLoading {
        return None;
      }
      query := Some(ChatQuery(inputMessage, ContextOf(messages)));
      messages := messages + [Message(User, inputMessage)];
      inputMessage := "";
      isLoading := true;
    }

    /** The `try`/`catch`/`finally` once the query settles: the reply joins the log
        and loading ends. */
    method FinishSend(outcome: Outcome<ChatResponse>)
      requires Valid() && isLoading
      modifies this`messages, this`isLoading
      ensures Valid()
      ensures messages == old(messages) + [Message(Assistant, AssistantText(outcome))]
      ensures !isLoading
    {
      messages := messages + [Message(Assistant, AssistantText(outcome))];
      isLoading := false;
    }

    /** `handleSendMessage` from submit to settlement, the server answering reply. */
    method HandleSendMessage(client: ApiClient, reply: Reply<ChatResponse>)
      returns (request: Option<HttpRequest>)
      requires Valid()
      modifies this
      ensures Valid()
      ensures request.None? <==> Blank(old(inputMessage)) || old(isLoading)
      ensures request.None? ==> unchanged(this)
      ensures request.Some? ==>
                && UrlRule(client.baseUrl, ChatPath, client.functionKey, request.value.url)
                && request.value.verb == Some("POST")
                && request.value.body == Some(ChatQueryJson(ChatQuery(old(inputMessage), ContextOf(old(messages)))))
                && messages == old(messages) + [Message(User, old(inputMessage)),
                                                Message(Assistant, AssistantText(RequestOutcome(reply)))]
                && inputMessage == "" && !isLoading
    {
      ghost var before, input := messages, inputMessage;
      var query := BeginSend();
      if query.None? {
        return None;
      }
      var r, outcome := client.PostChatQuery(query.value, reply);
      FinishSend(outcome);
      AppendPair(before, Message(User, input), Message(Assistant, AssistantText(outcome)));
      request := Some(r);
    }
  }
}
