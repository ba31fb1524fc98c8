/** The assistant screen (src/components/AIAssistant.tsx): the keyword router
    that picks a canned answer for a prompt, and the message list of the chat.
    The answers themselves are represented by their topic. `lower` is the
    library's lower-casing and `trim` its whitespace trimming, both passed in. */
module Assistant {
  import opened Base
  import opened Seqs

  /** The canned answers, in the order the router tries them. */
  datatype Topic = FootAndMouth | CalfScour | MilkFever | CaseReport | Greeting

  predicate AsksFootAndMouth(p: string) { Contains(p, "şap") || Contains(p, "belirti") }
  predicate AsksCalfScour(p: string) { Contains(p, "ishal") || Contains(p, "buzağı") }
  predicate AsksMilkFever(p: string) { Contains(p, "süt humması") || Contains(p, "hipokalsemi") }
  predicate AsksReport(p: string) { Contains(p, "rapor") || Contains(p, "yaz") }

  /** `getAIAssistantResponse`: the first topic whose keywords occur in the
      lower-cased prompt, and the greeting when none does. */
  function Route(prompt: string, lower: string -> string): (t: Topic)
    ensures t == FootAndMouth <==> AsksFootAndMouth(lower(prompt))
    ensures t == CalfScour <==> !AsksFootAndMouth(lower(prompt)) && AsksCalfScour(lower(prompt))
    ensures t == MilkFever <==>
      !AsksFootAndMouth(lower(prompt)) && !AsksCalfScour(lower(prompt)) && AsksMilkFever(lower(prompt))
    ensures t == CaseReport <==>
      && !AsksFootAndMouth(lower(prompt)) && !AsksCalfScour(lower(prompt)) && !AsksMilkFever(lower(prompt))
      && AsksReport(lower(prompt))
    ensures t == Greeting <==>
      && !AsksFootAndMouth(lower(prompt)) && !AsksCalfScour(lower(prompt)) && !AsksMilkFever(lower(prompt))
      && !AsksReport(lower(prompt))
  {
    var p := lower(prompt);
    if AsksFootAndMouth(p) then FootAndMouth
    else if AsksCalfScour(p) then CalfScour
    else if AsksMilkFever(p) then MilkFever
    else if AsksReport(p) then CaseReport
    else Greeting
  }

  /** The position of a topic in the router's order. */
  function Rank(t: Topic): nat
  {
    match t
    case FootAndMouth => 0
    case CalfScour => 1
    case MilkFever => 2
    case CaseReport => 3
    case Greeting => 4
  }

  /** The prompt carries a keyword of the topic (any prompt suits the greeting). */
  predicate Asks(t: Topic, p: string)
  {
    match t
    case FootAndMouth => AsksFootAndMouth(p)
    case CalfScour => AsksCalfScour(p)
    case MilkFever => AsksMilkFever(p)
    case CaseReport => AsksReport(p)
    case Greeting => true
  }

  /** The routed topic is one the prompt asks about, and no topic the prompt
      asks about comes earlier in the order. */
  lemma RouteIsFirstMatch(prompt: string, lower: string -> string, t: Topic)
    ensures Asks(Route(prompt, lower), lower(prompt))
    ensures Asks(t, lower(prompt)) ==> Rank(Route(prompt, lower)) <= Rank(t)
  {
  }

  /** A chat message: the user's text, a canned answer, or the error notice. */
  datatype Message = UserSays(text: string) | AssistantAnswers(topic: Topic) | AssistantFails

  const ErrorText: string := "Bir hata oluştu. Lütfen tekrar deneyin."

  /** What a message shows; the canned answer texts are not modelled. */
  function Shown(m: Message): (s: Option<string>)
    ensures m.UserSays? ==> s == Some(m.text)
    ensures m.AssistantFails? ==> s == Some(ErrorText)
    ensures m.AssistantAnswers? ==> s == None
  {
    match m
    case UserSays(text) => Some(text)
    case AssistantAnswers(_) => None
    case AssistantFails => Some(ErrorText)
  }

  /** The chat state. `pending` is the trimmed prompt of the send in flight,
      the text the awaited answer is computed from. */
  class Chat {
    var messages: seq<Message>
    var input: string
    var loading: bool
    var pending: Option<string>

    /** A reply is awaited exactly while one send is in flight. */
    predicate Valid()
      reads this
    {
      loading <==> pending.Some?
    }

    constructor ()
      ensures Valid() && messages == [] && input == "" && !loading
    {
      messages, input, loading, pending := [], "", false, None;
    }

    /** The first half of `sendMessage`: nothing happens while a reply is
        awaited or when the trimmed input is empty; otherwise the trimmed text
        is appended as the user's message, the input is cleared, and the
        screen waits. */
    method Send(trim: string -> string) returns (sent: bool)
      requires Valid()
      modifies this
      ensures Valid()
      ensures sent <==> trim(old(input)) != "" && !old(loading)
      ensures !sent ==> unchanged(this)
      ensures sent ==>
        && messages == old(messages) + [UserSays(trim(old(input)))]
        && input == "" && loading && pending == Some(trim(old(input)))
    {
      if trim(input) == "" || loading {
        return false;
      }
      var userMessage := trim(input);
      input := "";
      messages := messages + [UserSays(userMessage)];
      loading := true;
      pending := Some(userMessage);
      sent := true;
    }

    /** The second half: exactly one assistant message is appended, the answer
        routed from the pending prompt or the error notice when the answer
        failed, and the screen stops waiting. */
    method Respond(lower: string -> string, failed: bool)
      requires Valid() && loading
      modifies this
      ensures Valid() && !loading
      ensures messages == old(messages) + [if failed then AssistantFails else AssistantAnswers(Route(old(pending).value, lower))]
      ensures input == old(input)
    {
      var reply := if failed then AssistantFails else AssistantAnswers(Route(pending.value, lower));
      messages := messages + [reply];
      loading := false;
      pending := None;
    }
  }

  /** A whole exchange appends the user's trimmed text and one reply to it,
      and never removes or reorders earlier messages. */
  method Exchange(chat: Chat, trim: string -> string, lower: string -> string, failed: bool)
    returns (sent: bool)
    requires chat.Valid() && !chat.loading
    modifies chat
    ensures chat.Valid() && !chat.loading
    ensures old(chat.messages) <= chat.messages
    ensures sent <==> trim(old(chat.input)) != ""
    ensures sent ==> chat.messages == old(chat.messages) + [UserSays(trim(old(chat.input))),
      if failed then AssistantFails else AssistantAnswers(Route(trim(old(chat.input)), lower))]
    ensures !sent ==> chat.messages == old(chat.messages)
  {
    sent := chat.Send(trim);
    if sent {
      chat.Respond(lower, failed);
    }
  }
}
