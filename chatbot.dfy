/** The chat assistant widget: the greeting, the send handler with its
    guards, the conversation history sent along with each message, the
    classification of failures, and the quick-suggestion chips. */
module Chatbot {
  import opened Common
  import Api

  datatype Sender = UserSender | BotSender

  /** One entry of the message log. `chips` are the suggestions a greeting
      carries. */
  datatype ChatMessage = ChatMessage(sender: Sender, content: string, isAuthPrompt: bool, isError: bool,
                                     chips: seq<string>)

  /** One entry of the history sent to the chat endpoint. */
  datatype Turn = Turn(role: string, content: string)

  /** What the send handler passes to the chat endpoint. */
  datatype ChatRequest = ChatRequest(message: string, history: seq<Turn>)

  /** The chat endpoint's answer. */
  datatype ChatReply = ChatReply(success: bool, message: string)

  const HistoryLimit: int := 10
  const QuickSuggestionLimit: int := 4

  const GreetingSignedIn: string :=
    "Hi! \U{1F44B} I'm your GetSetRide assistant. I can help you find the perfect car for your trip. Try asking me things like:"
  const GreetingSignedOut: string :=
    "Hi! \U{1F44B} I'm your GetSetRide assistant. Please log in to chat with me and find the perfect car for your trip."
  const GreetingChips: seq<string> := ["Show me cars in Delhi", "Find SUVs", "Cars under ₹2000/day"]
  const LoginPrompt: string := "Please log in to continue chatting."
  const SessionExpiredText: string := "Your session has expired. Please log in again."
  const GenericErrorText: string := "Sorry, I encountered an error. Please try again later."
  const FallbackErrorText: string := "Something went wrong"

  function BotText(content: string): ChatMessage {
    ChatMessage(BotSender, content, false, false, [])
  }

  function AuthPrompt(content: string): ChatMessage {
    ChatMessage(BotSender, content, true, false, [])
  }

  function UserText(content: string): ChatMessage {
    ChatMessage(UserSender, content, false, false, [])
  }

  /** The first message, chosen by whether a token is stored. */
  function Greeting(items: map<string, string>): (m: ChatMessage)
    ensures m.sender == BotSender
    ensures m.isAuthPrompt <==> Api.StoredToken(items).None?
    ensures Api.StoredToken(items).Some? ==> m.content == GreetingSignedIn && m.chips == GreetingChips
    ensures Api.StoredToken(items).None? ==> m.content == GreetingSignedOut && m.chips == []
  {
    if Api.StoredToken(items).Some? then ChatMessage(BotSender, GreetingSignedIn, false, false, GreetingChips)
    else AuthPrompt(GreetingSignedOut)
  }

  /** `messages.slice(-10)` mapped to roles: the last ten messages at most,
      in order, a user's message as "user" and any other as "assistant". */
  function History(messages: seq<ChatMessage>): (h: seq<Turn>)
    ensures |h| == if |messages| < HistoryLimit then |messages| else HistoryLimit
    ensures forall i :: 0 <= i < |h| ==>
              var m := messages[|messages| - |h| + i];
              h[i].content == m.content && (h[i].role == "user" <==> m.sender == UserSender) &&
              (h[i].role == "user" || h[i].role == "assistant")
  {
    var recent := if |messages| <= HistoryLimit then messages else messages[|messages| - HistoryLimit..];
    seq(|recent|, i requires 0 <= i < |recent| =>
      Turn(if recent[i].sender == UserSender then "user" else "assistant", recent[i].content))
  }

  /** The text of a failed send: the endpoint's message (else a default)
      for an unsuccessful answer, or the thrown error's own message. */
  function FailureText(outcome: Result<ChatReply>): (t: string)
    requires !(outcome.Ok? && outcome.value.success)
    ensures outcome.Ok? ==> t == OrElse(outcome.value.message, FallbackErrorText)
    ensures outcome.Err? ==> t == outcome.message
  {
    match outcome
    case Ok(reply) => OrElse(reply.message, FallbackErrorText)
    case Err(m) => m
  }

  /** A failure whose text mentions "authorized" ends the chat session. */
  predicate SessionExpired(outcome: Result<ChatReply>) {
    !(outcome.Ok? && outcome.value.success) &&
    Truthy(FailureText(outcome)) && Contains(FailureText(outcome), "authorized")
  }

  /** The bot message appended once the endpoint has answered. */
  function ReplyMessage(outcome: Result<ChatReply>): (m: ChatMessage)
    ensures m.sender == BotSender
    ensures outcome.Ok? && outcome.value.success ==> m == BotText(outcome.value.message)
    ensures SessionExpired(outcome) ==> m == AuthPrompt(SessionExpiredText)
    ensures !(outcome.Ok? && outcome.value.success) && !SessionExpired(outcome) ==>
              m == ChatMessage(BotSender, GenericErrorText, false, true, [])
    ensures m.isError ==> !m.isAuthPrompt
  {
    if outcome.Ok? && outcome.value.success then BotText(outcome.value.message)
    else if SessionExpired(outcome) then AuthPrompt(SessionExpiredText)
    else ChatMessage(BotSender, GenericErrorText, false, true, [])
  }

  /** The backend's 401 message ends the session; the endpoint's own
      empty failure text does not, as its default never mentions "authorized". */
  lemma UnauthorizedEndsSession()
    ensures SessionExpired(Err("Unauthorized"))
    ensures !SessionExpired(Ok(ChatReply(false, "")))
  {
    assert "Unauthorized"[2..12] == "authorized";
    ContainsAt("Unauthorized", "authorized", 2);
    assert 'a' !in FallbackErrorText;
    NotContained(FallbackErrorText, "authorized");
  }

  /** A text without the pattern's first character does not contain it. */
  lemma {:induction false} NotContained(s: string, sub: string)
    requires sub != [] && sub[0] !in s
    ensures !Contains(s, sub)
  {
    if s != [] {
      assert sub[0] != s[0];
      NotContained(s[1..], sub);
    }
  }

  /** The chips under the log: only when signed in, with suggestions
      loaded, and at most the greeting in the log; never more than four. */
  function QuickSuggestions(isAuthenticated: bool, suggestions: seq<string>, messages: seq<ChatMessage>): (r: seq<string>)
    ensures |r| <= QuickSuggestionLimit
    ensures r != [] <==> isAuthenticated && |suggestions| > 0 && |messages| <= 1
    ensures r <= suggestions
    ensures r != [] ==> |r| == if |suggestions| < QuickSuggestionLimit then |suggestions| else QuickSuggestionLimit
  {
    if isAuthenticated && |suggestions| > 0 && |messages| <= 1 then
      if |suggestions| <= QuickSuggestionLimit then suggestions else suggestions[..QuickSuggestionLimit]
    else []
  }

  class ChatWidget {
    var isOpen: bool
    var messages: seq<ChatMessage>
    var inputValue: string
    var isLoading: bool
    var suggestions: seq<string>
    var isAuthenticated: bool

    constructor ()
      ensures !isOpen && messages == [] && inputValue == "" && !isLoading && suggestions == [] && !isAuthenticated
    {
      isOpen := false;
      messages := [];
      inputValue := "";
      isLoading := false;
      suggestions := [];
      isAuthenticated := false;
    }

    /** The effect run when the widget opens: signed in iff a token is stored. */
    method CheckAuthStatus(items: map<string, string>)
      modifies this
      ensures isAuthenticated <==> Api.StoredToken(items).Some?
      ensures isOpen == old(isOpen) && messages == old(messages) && inputValue == old(inputValue)
      ensures isLoading == old(isLoading) && suggestions == old(suggestions)
    {
      isAuthenticated := Api.StoredToken(items).Some?;
    }

    /** The greeting effect: only an empty log gets the greeting. */
    method Greet(items: map<string, string>)
      modifies this
      ensures old(messages) == [] ==> messages == [Greeting(items)]
      ensures old(messages) != [] ==> messages == old(messages)
      ensures isOpen == old(isOpen) && inputValue == old(inputValue) && isLoading == old(isLoading)
      ensures suggestions == old(suggestions) && isAuthenticated == old(isAuthenticated)
    {
      if |messages| == 0 {
        messages := [Greeting(items)];
      }
    }

    /** Loading the suggestion list: kept only from a successful answer. */
    method LoadSuggestions(success: bool, list: seq<string>)
      modifies this
      ensures suggestions == if success then list else old(suggestions)
      ensures isOpen == old(isOpen) && messages == old(messages) && inputValue == old(inputValue)
      ensures isLoading == old(isLoading) && isAuthenticated == old(isAuthenticated)
    {
      if success {
        suggestions := list;
      }
    }

    method SetInput(value: string)
      modifies this
      ensures inputValue == value
      ensures isOpen == old(isOpen) && messages == old(messages) && isLoading == old(isLoading)
      ensures suggestions == old(suggestions) && isAuthenticated == old(isAuthenticated)
    {
      inputValue := value;
    }

    /** The part of `handleSendMessage` before the endpoint answers. A blank
        message (`!message.trim()`: by the contract of `Trim`, exactly a
        message of white space only), or one sent while another is in flight, changes nothing;
        without a token one login prompt is appended; otherwise the user's
        message is appended, the input cleared, and the request returned,
        its history built from the log as it was before this message. */
    method BeginSend(message: string, items: map<string, string>) returns (request: Option<ChatRequest>)
      modifies this
      ensures AllSpace(message) || old(isLoading) ==>
                request.None? && messages == old(messages) && inputValue == old(inputValue) &&
                isLoading == old(isLoading)
      ensures !AllSpace(message) && !old(isLoading) && Api.StoredToken(items).None? ==>
                request.None? && messages == old(messages) + [AuthPrompt(LoginPrompt)] &&
                inputValue == old(inputValue) && !isLoading
      ensures !AllSpace(message) && !old(isLoading) && Api.StoredToken(items).Some? ==>
                request == Some(ChatRequest(message, History(old(messages)))) &&
                messages == old(messages) + [UserText(message)] && inputValue == "" && isLoading
      ensures isOpen == old(isOpen) && suggestions == old(suggestions) && isAuthenticated == old(isAuthenticated)
    {
      var blank := AllSpace(message);
      var token := Api.StoredToken(items);
      if blank || isLoading {
        request := None;
      } else if token.None? {
        messages := messages + [AuthPrompt(LoginPrompt)];
        request := None;
      } else {
        var history := History(messages);
        messages := messages + [UserText(message)];
        inputValue := "";
        isLoading := true;
        request := Some(ChatRequest(message, history));
      }
    }

    /** The part of `handleSendMessage` after the endpoint answers: one bot
        message is appended; an expired session also signs the widget out;
        loading ends. */
    method FinishSend(outcome: Result<ChatReply>)
      requires isLoading
      modifies this
      ensures messages == old(messages) + [ReplyMessage(outcome)]
      ensures !isLoading
      ensures isAuthenticated == (old(isAuthenticated) && !SessionExpired(outcome))
      ensures isOpen == old(isOpen) && inputValue == old(inputValue) && suggestions == old(suggestions)
    {
      messages := messages + [ReplyMessage(outcome)];
      if SessionExpired(outcome) {
        isAuthenticated := false;
      }
      isLoading := false;
    }

    /** A whole send (or a suggestion click) when the endpoint's answer is
        known: the log only grows, by at most two messages, and a send that
        did not find another in flight leaves nothing loading. */
    method HandleSendMessage(message: string, items: map<string, string>, outcome: Result<ChatReply>)
      returns (request: Option<ChatRequest>)
      modifies this
      ensures old(messages) <= messages && |messages| <= |old(messages)| + 2
      ensures !old(isLoading) ==> !isLoading
      ensures request.Some? ==>
                messages == old(messages) + [UserText(message), ReplyMessage(outcome)] &&
                request.value.history == History(old(messages)) && |request.value.history| <= HistoryLimit
      ensures isOpen == old(isOpen) && suggestions == old(suggestions)
    {
      request := BeginSend(message, items);
      if request.Some? {
        FinishSend(outcome);
      }
    }
  }
}
