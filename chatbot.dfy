/** The chat widget's state and its send transitions: the message list, the
    text box, the loading flag and whether the panel is open. */
module Chatbot {
  import opened Wrappers
  import opened JsText

  const GreetingText := "Hi! I'm Palak's AI assistant \U{1F916} Ask me about her experience, skills, projects, or anything else you'd like to know about her!"
  const ErrorText := "Sorry, I encountered an error. Please try again later."

  /** A chat bubble; the timestamp is left out. */
  datatype Message = Message(id: string, text: string, isUser: bool)

  /** How the `fetch` to the chat endpoint ended: a response with its `ok`
      flag and the `response` field of its JSON, or a thrown error (network
      failure or a body that is not JSON). */
  datatype FetchResult = Responded(ok: bool, response: string) | Threw

  /** The JSON body the widget posts. */
  datatype Outbound = Outbound(message: string, conversationHistory: seq<Message>)

  datatype WidgetState = WidgetState(isOpen: bool, messages: seq<Message>, inputValue: string, isLoading: bool)

  /** The guard of `sendMessage`, which is also when the send button is enabled. */
  predicate CanSend(s: WidgetState)
    ensures CanSend(s) <==> !IsBlank(s.inputValue) && !s.isLoading
  {
    Trim(s.inputValue) != "" && !s.isLoading
  }

  /** The text of the bot message that ends a send. */
  function ReplyText(result: FetchResult): (r: string)
    ensures result.Responded? && result.ok ==> r == result.response
    ensures result.Threw? || !result.ok ==> r == ErrorText
  {
    if result.Responded? && result.ok then result.response else ErrorText
  }

  /** The state while the request is in flight. */
  function Begin(s: WidgetState, userId: string): (r: WidgetState)
    ensures |r.messages| == |s.messages| + 1 && r.messages[..|s.messages|] == s.messages
    ensures r.messages[|s.messages|] == Message(userId, s.inputValue, true)
    ensures r.inputValue == "" && r.isLoading && r.isOpen == s.isOpen
  {
    s.(messages := s.messages + [Message(userId, s.inputValue, true)], inputValue := "", isLoading := true)
  }

  /** The state once the request has settled. */
  function Finish(s: WidgetState, result: FetchResult, botId: string): (r: WidgetState)
    ensures |r.messages| == |s.messages| + 1 && r.messages[..|s.messages|] == s.messages
    ensures r.messages[|s.messages|].id == botId && !r.messages[|s.messages|].isUser
    ensures r.messages[|s.messages|].text == ReplyText(result)
    ensures !r.isLoading && r.inputValue == s.inputValue && r.isOpen == s.isOpen
  {
    s.(messages := s.messages + [Message(botId, ReplyText(result), false)], isLoading := false)
  }

  /** A whole `sendMessage`: a blank input or a request in flight changes
      nothing; otherwise the untrimmed input is appended as a user message,
      then exactly one bot message (the response on success, the apology on
      any failure), and the input is cleared and loading is off. */
  function Send(s: WidgetState, userId: string, result: FetchResult, botId: string): (r: WidgetState)
    ensures IsBlank(s.inputValue) || s.isLoading ==> r == s
    ensures !IsBlank(s.inputValue) && !s.isLoading ==>
      && |r.messages| == |s.messages| + 2
      && r.messages[..|s.messages|] == s.messages
      && r.messages[|s.messages|] == Message(userId, s.inputValue, true)
      && r.messages[|s.messages| + 1].id == botId
      && !r.messages[|s.messages| + 1].isUser
      && (result.Responded? && result.ok ==> r.messages[|s.messages| + 1].text == result.response)
      && (result.Threw? || !result.ok ==> r.messages[|s.messages| + 1].text == ErrorText)
      && r.inputValue == ""
      && !r.isLoading
      && r.isOpen == s.isOpen
  {
    if CanSend(s) then Finish(Begin(s, userId), result, botId) else s
  }

  /** While a request is in flight a second send is refused, and the state it
      leaves is exactly one user message longer with the input cleared. */
  lemma InFlightBlocksResend(s: WidgetState, userId: string)
    requires CanSend(s)
    ensures !CanSend(Begin(s, userId))
    ensures Begin(s, userId).messages == s.messages + [Message(userId, s.inputValue, true)]
    ensures Begin(s, userId).inputValue == "" && Begin(s, userId).isLoading
  {
  }

  /** `handleKeyPress`: Enter without Shift sends, anything else does not. */
  predicate SendsOnKey(key: string, shiftKey: bool)
    ensures SendsOnKey(key, shiftKey) ==> key == "Enter"
    ensures shiftKey ==> !SendsOnKey(key, shiftKey)
    ensures key == "Enter" && !shiftKey ==> SendsOnKey(key, shiftKey)
  {
    key == "Enter" && !shiftKey
  }

  class ChatWidget {
    var isOpen: bool
    var messages: seq<Message>
    var inputValue: string
    var isLoading: bool

    function State(): WidgetState
      reads this
    {
      WidgetState(isOpen, messages, inputValue, isLoading)
    }

    /** Closed, empty input, not loading, and one greeting from the bot. */
    constructor ()
      ensures !isOpen && inputValue == "" && !isLoading
      ensures messages == [Message("1", GreetingText, false)]
    {
      isOpen := false;
      messages := [Message("1", GreetingText, false)];
      inputValue := "";
      isLoading := false;
    }

    /** The floating button opens the panel. */
    method Open()
      modifies this
      ensures State() == old(State()).(isOpen := true)
    {
      isOpen := true;
    }

    /** The close button hides the panel; the conversation is kept. */
    method Close()
      modifies this
      ensures State() == old(State()).(isOpen := false)
    {
      isOpen := false;
    }

    /** Typing into the text box, which is disabled while loading. */
    method Type(value: string)
      modifies this
      ensures State() == if old(isLoading) then old(State()) else old(State()).(inputValue := value)
    {
      if !isLoading {
        inputValue := value;
      }
    }

    /** The synchronous part of `sendMessage`: the guard, the user message,
        clearing the input and raising the loading flag. Returns the body to
        post: the original input and the messages before the new one. */
    method BeginSend(userId: string) returns (request: Option<Outbound>)
      modifies this
      ensures !CanSend(old(State())) ==> request.None? && State() == old(State())
      ensures CanSend(old(State())) ==>
        && request == Some(Outbound(old(inputValue), old(messages)))
        && messages == old(messages) + [Message(userId, old(inputValue), true)]
        && inputValue == "" && isLoading && isOpen == old(isOpen)
    {
      if Trim(inputValue) == "" || isLoading {
        return None;
      }
      var userMessage := Message(userId, inputValue, true);
      request := Some(Outbound(inputValue, messages));
      messages := messages + [userMessage];
      inputValue := "";
      isLoading := true;
    }

    /** The part of `sendMessage` after the request settles: one bot message,
        then loading is cleared on every path. */
    method FinishSend(result: FetchResult, botId: string)
      modifies this
      ensures messages == old(messages) + [Message(botId, ReplyText(result), false)]
      ensures !isLoading && inputValue == old(inputValue) && isOpen == old(isOpen)
    {
      if result.Responded? && result.ok {
        messages := messages + [Message(botId, result.response, false)];
      } else {
        messages := messages + [Message(botId, ErrorText, false)];
      }
      isLoading := false;
    }

    /** `sendMessage` with the request's outcome given. */
    method SendMessage(userId: string, result: FetchResult, botId: string) returns (request: Option<Outbound>)
      modifies this
      ensures State() == Send(old(State()), userId, result, botId)
      ensures request == if CanSend(old(State())) then Some(Outbound(old(inputValue), old(messages))) else None
    {
      request := BeginSend(userId);
      if request.Some? {
        FinishSend(result, botId);
      }
    }

    /** `handleKeyPress`: returns whether the default action was prevented. */
    method HandleKeyPress(key: string, shiftKey: bool, userId: string, result: FetchResult, botId: string)
      returns (prevented: bool)
      modifies this
      ensures prevented == SendsOnKey(key, shiftKey)
      ensures State() == if prevented then Send(old(State()), userId, result, botId) else old(State())
    {
      prevented := key == "Enter" && !shiftKey;
      if prevented {
        var _ := SendMessage(userId, result, botId);
      }
    }
  }
}
