/**
 * The assistant chat: the duplicate-question check, the gate on a
 * submission, the messages a request adds and the reset. The request itself
 * is split into `Submit`, up to the call to the assistant endpoint, and
 * `Complete`, with the endpoint's outcome as a parameter. `Date.now()` is the
 * parameter `now`.
 */
module ChatAssistant {
  import opened Wrappers
  import opened Text
  import opened Seqs

  datatype Role = UserRole | AssistantRole | SystemRole | ErrorRole

  datatype Message = Message(role: Role, content: string, timestamp: int)

  const Greeting := "Hello! I'm your AI component assistant. How can I help you find the right electronic components today?"
  const SimilarQuestionError := "You've asked a very similar question recently. Please try a different question to avoid unnecessary API calls."
  const RequestLimitError := "You've reached the maximum number of requests for this session. Please try again later."
  const FallbackReply := "I'm sorry, I couldn't process your request at the moment. Please try again later."
  const RequestFailed := "Failed to get response from AI assistant"
  const UnexpectedError := "I'm sorry, I encountered an error. Please try again later."

  /** The errors the chat shows above the input. */
  datatype ChatError = SimilarQuestion | RequestLimit {
    function Text(): string {
      match this
      case SimilarQuestion => SimilarQuestionError
      case RequestLimit => RequestLimitError
    }
  }

  /** The requests a session may make. */
  const MaxRequests := 20

  /** How many of the latest user questions are compared. */
  const RecentWindow := 3

  /** A question as compared: lowercased, then trimmed. */
  function Normalised(s: string): string {
    Trim(ToLower(s))
  }

  predicate IsUser(m: Message) {
    m.role == UserRole
  }

  /** The last three user messages, oldest first. */
  function RecentUserMessages(messages: seq<Message>): seq<Message> {
    var users := Filter(messages, IsUser);
    Slice(users, -RecentWindow, |users|)
  }

  /** The recent messages are the user's latest three, or all of them when there are fewer. */
  lemma RecentUserMessagesMeaning(messages: seq<Message>)
    ensures var users := Filter(messages, IsUser);
      && |RecentUserMessages(messages)| == Min(|users|, RecentWindow)
      && RecentUserMessages(messages) == users[|users| - Min(|users|, RecentWindow)..]
  {
    var users := Filter(messages, IsUser);
    SliceLast(users, RecentWindow);
    if |users| < RecentWindow {
      assert users[|users| - Min(|users|, RecentWindow)..] == users;
    }
  }

  /** Only user messages are compared. */
  lemma RecentAreUserMessages(messages: seq<Message>)
    ensures forall m | m in RecentUserMessages(messages) :: m in messages && m.role == UserRole
  {
    var users := Filter(messages, IsUser);
    FilterMembers(messages, IsUser);
    assert forall m | m in RecentUserMessages(messages) :: m in users;
  }

  /** The test the scan applies: the message normalises to the same text as the question. */
  function SameAs(question: string): Message -> bool {
    (m: Message) => Normalised(m.content) == Normalised(question)
  }

  /** The question is similar to one of the recent user messages. */
  predicate Similar(messages: seq<Message>, question: string) {
    Any(RecentUserMessages(messages), SameAs(question))
  }

  /** Similarity is a match among the recent user messages. */
  lemma SimilarMeaning(messages: seq<Message>, question: string)
    ensures Similar(messages, question) <==>
      exists m | m in RecentUserMessages(messages) :: Normalised(m.content) == Normalised(question)
  {
    AnyMember(RecentUserMessages(messages), SameAs(question));
  }

  /** `isSimilarToRecentQuestion`: the user's last three questions, scanned for one like this. */
  method IsSimilarToRecentQuestion(messages: seq<Message>, question: string) returns (similar: bool)
    ensures similar == Similar(messages, question)
  {
    similar := ScanForSame(RecentUserMessages(messages), question);
  }

  /** The loop over the recent questions, returning as soon as one is like this. */
  method ScanForSame(recent: seq<Message>, question: string) returns (similar: bool)
    ensures similar == Any(recent, SameAs(question))
  {
    assert recent[0..] == recent;
    for i := 0 to |recent|
      invariant Any(recent[i..], SameAs(question)) == Any(recent, SameAs(question))
    {
      if Normalised(recent[i].content) == Normalised(question) {
        return true;
      }
      assert recent[i..][1..] == recent[i + 1..];
    }
    return false;
  }

  /** Case and surrounding whitespace do not matter, and older or non-user messages are never compared. */
  lemma SimilarityIgnoresCaseAndPadding(messages: seq<Message>, question: string, w1: string, w2: string)
    requires AllWhitespace(w1) && AllWhitespace(w2)
    ensures Similar(messages, question) == Similar(messages, w1 + ToUpper(question) + w2)
  {
    SimilarMeaning(messages, question);
    SimilarMeaning(messages, w1 + ToUpper(question) + w2);
    LowerOfPadded(question, w1, w2);
  }

  /** Padding a question with whitespace and changing its case leaves its normal form unchanged. */
  lemma LowerOfPadded(question: string, w1: string, w2: string)
    requires AllWhitespace(w1) && AllWhitespace(w2)
    ensures Normalised(w1 + ToUpper(question) + w2) == Normalised(question)
  {
    var q := w1 + ToUpper(question) + w2;
    TrimToLower(q);
    TrimIgnoresPadding(w1, ToUpper(question), w2);
    LowerAfterUpper(question);
    TrimToLower(question);
    TrimToLower(ToUpper(question));
  }

  /** A message older than the last three user messages is never compared. */
  lemma OlderQuestionsForgotten(messages: seq<Message>, question: string, later: seq<Message>)
    requires |Filter(later, IsUser)| >= RecentWindow
    ensures Similar(messages + later, question) == Similar(later, question)
  {
    RecentIgnoresOlder(messages, later);
  }

  /** Three later user messages push every earlier one out of the window. */
  lemma RecentIgnoresOlder(messages: seq<Message>, later: seq<Message>)
    requires |Filter(later, IsUser)| >= RecentWindow
    ensures RecentUserMessages(messages + later) == RecentUserMessages(later)
  {
    var a, b := Filter(messages, IsUser), Filter(later, IsUser);
    FilterAppend(messages, later, IsUser);
    SliceLast(a + b, RecentWindow);
    SliceLast(b, RecentWindow);
    SuffixOfAppend(a, b, RecentWindow);
  }

  /** What a submission does. */
  datatype Gate = Ignored | TooSimilar | LimitReached | Accepted

  /** The checks of `handleSubmit`, in their order, given whether the question is similar to a recent one. */
  function GateOf(input: string, isLoading: bool, similar: bool, requestCount: int): Gate {
    if Trim(input) == "" || isLoading then Ignored
    else if similar then TooSimilar
    else if requestCount >= MaxRequests then LimitReached
    else Accepted
  }

  /** The chat's messages, input, loading flag and error after a submission with the given gate. */
  function AfterSubmit(gate: Gate, messages: seq<Message>, input: string, isLoading: bool, error: Option<ChatError>, now: int)
    : (seq<Message>, string, bool, Option<ChatError>)
  {
    match gate
    case Ignored => (messages, input, isLoading, error)
    case TooSimilar => (messages, input, isLoading, Some(SimilarQuestion))
    case LimitReached => (messages, input, isLoading, Some(RequestLimit))
    case Accepted => (messages + [Message(UserRole, input, now)], "", true, None)
  }

  /**
   * Only an accepted submission changes the messages, and then by exactly
   * one user message holding the input; a refused one only sets its error;
   * an ignored one changes nothing. Loading starts exactly on acceptance.
   */
  lemma SubmitEffects(gate: Gate, messages: seq<Message>, input: string, isLoading: bool, error: Option<ChatError>, now: int)
    ensures var after := AfterSubmit(gate, messages, input, isLoading, error, now);
      && (gate != Accepted <==> after.0 == messages)
      && (gate != Accepted ==> after.1 == input && after.2 == isLoading)
      && (gate == Ignored ==> after.3 == error)
      && (gate == TooSimilar ==> after.3 == Some(SimilarQuestion))
      && (gate == LimitReached ==> after.3 == Some(RequestLimit))
      && (gate == Accepted ==> after.0 == messages + [Message(UserRole, input, now)] && after.1 == "" && after.2 && after.3 == None)
  {
    if gate == Accepted {
      assert |AfterSubmit(gate, messages, input, isLoading, error, now).0| == |messages| + 1;
    }
  }

  /** The outcome of the call to the assistant endpoint. */
  datatype Outcome =
    | Answered(reply: Option<string>)    // a successful response and the first choice's content, if any
    | NotOk(errorField: Option<string>)  // a response that is not ok, with its `error` field, if any
    | Thrown(message: Option<string>)    // the request failed: an `Error` with its message, or some other value

  /** The message that closes a request. */
  function ClosingMessage(outcome: Outcome, now: int): (m: Message)
    ensures outcome.Answered? <==> m.role == AssistantRole
    ensures !outcome.Answered? <==> m.role == ErrorRole
    ensures m.timestamp == now
    ensures outcome.Thrown? && outcome.message.Some? ==> m.content == outcome.message.value
    ensures m.content != "" || outcome == Thrown(Some(""))
  {
    match outcome
    case Answered(reply) =>
      Message(AssistantRole, if reply.Some? && reply.value != "" then reply.value else FallbackReply, now)
    case NotOk(errorField) =>
      Message(ErrorRole, if errorField.Some? && errorField.value != "" then errorField.value else RequestFailed, now)
    case Thrown(message) =>
      Message(ErrorRole, if message.Some? then message.value else UnexpectedError, now)
  }

  /** The chat's state. */
  class ChatSession {
    var messages: seq<Message>
    var input: string
    var isLoading: bool
    var error: Option<ChatError>
    var requestCount: int

    /** Never more than `MaxRequests` answered requests, and fewer while one is in flight. */
    ghost predicate Valid()
      reads this
    {
      0 <= requestCount <= MaxRequests && (isLoading ==> requestCount < MaxRequests)
    }

    constructor(now: int)
      ensures Valid()
      ensures messages == [Message(AssistantRole, Greeting, now)]
      ensures input == "" && !isLoading && error == None && requestCount == 0
    {
      messages := [Message(AssistantRole, Greeting, now)];
      input := "";
      isLoading := false;
      error := None;
      requestCount := 0;
    }

    /** The text field's change handler. */
    method SetInput(text: string)
      modifies this
      ensures input == text
      ensures messages == old(messages) && isLoading == old(isLoading) && error == old(error)
      ensures requestCount == old(requestCount)
    {
      input := text;
    }

    /**
     * `handleSubmit` up to the request: a blank input or a request in flight
     * changes nothing; a similar question or a spent quota sets the error
     * only; otherwise the question is added, the input cleared and the
     * request started. `gate` is the outcome of the checks.
     */
    method Submit(now: int) returns (gate: Gate)
      requires Valid()
      modifies this
      ensures Valid()
      ensures gate == GateOf(old(input), old(isLoading), Similar(old(messages), old(input)), old(requestCount))
      ensures (messages, input, isLoading, error) ==
        AfterSubmit(gate, old(messages), old(input), old(isLoading), old(error), now)
      ensures requestCount == old(requestCount)
    {
      gate := CheckSubmission(input, isLoading, messages, requestCount);
      Apply(gate, now);
    }

    /** The state changes of `handleSubmit` once the checks have given `gate`. */
    method Apply(gate: Gate, now: int)
      requires Valid()
      requires gate == Accepted ==> !isLoading && requestCount < MaxRequests
      modifies this
      ensures Valid()
      ensures (messages, input, isLoading, error) ==
        AfterSubmit(gate, old(messages), old(input), old(isLoading), old(error), now)
      ensures requestCount == old(requestCount)
    {
      if gate == Ignored {
        return;
      }
      error := None;
      if gate == TooSimilar {
        error := Some(SimilarQuestion);
        return;
      }
      if gate == LimitReached {
        error := Some(RequestLimit);
        return;
      }
      messages := messages + [Message(UserRole, input, now)];
      input := "";
      isLoading := true;
    }

    /**
     * The rest of `handleSubmit`: the reply or the error is added as one
     * message, only a reply counts against the quota, and loading ends
     * either way.
     */
    method Complete(outcome: Outcome, now: int)
      requires Valid() && isLoading
      modifies this
      ensures Valid()
      ensures messages == old(messages) + [ClosingMessage(outcome, now)]
      ensures requestCount == old(requestCount) + (if outcome.Answered? then 1 else 0)
      ensures !isLoading
      ensures input == old(input) && error == old(error)
    {
      messages := messages + [ClosingMessage(outcome, now)];
      if outcome.Answered? {
        requestCount := requestCount + 1;
      }
      isLoading := false;
    }

    /** `clearChat`: only the greeting remains, the quota is restored and the error cleared. */
    method ClearChat(now: int)
      requires Valid()
      modifies this
      ensures Valid()
      ensures messages == [Message(AssistantRole, Greeting, now)]
      ensures requestCount == 0 && error == None
      ensures input == old(input) && isLoading == old(isLoading)
    {
      messages := [Message(AssistantRole, Greeting, now)];
      requestCount := 0;
      error := None;
    }
  }

  /** The checks of `handleSubmit`, in their order, with the scan for a similar question. */
  method CheckSubmission(input: string, isLoading: bool, messages: seq<Message>, requestCount: int) returns (gate: Gate)
    ensures gate == GateOf(input, isLoading, Similar(messages, input), requestCount)
    ensures gate == Accepted ==> !isLoading && requestCount < MaxRequests
  {
    if Trim(input) == "" || isLoading {
      return Ignored;
    }
    var similar := IsSimilarToRecentQuestion(messages, input);
    if similar {
      return TooSimilar;
    }
    if requestCount >= MaxRequests {
      return LimitReached;
    }
    return Accepted;
  }

  /**
   * A blank question or a request in flight is ignored before anything else;
   * a similar question is refused before the quota is looked at; a question
   * is accepted only with quota left.
   */
  lemma GateOrder(input: string, isLoading: bool, similar: bool, requestCount: int)
    ensures GateOf(input, isLoading, similar, requestCount) == Ignored <==> Trim(input) == "" || isLoading
    ensures GateOf(input, isLoading, similar, requestCount) == TooSimilar <==> Trim(input) != "" && !isLoading && similar
    ensures GateOf(input, isLoading, similar, requestCount) == Accepted <==>
      Trim(input) != "" && !isLoading && !similar && requestCount < MaxRequests
    ensures AllWhitespace(input) ==> GateOf(input, isLoading, similar, requestCount) == Ignored
  {
  }

  /** Asking the latest question again right after it was sent is refused as similar. */
  lemma RepeatIsRefused(messages: seq<Message>, question: string, now: int, reply: Message)
    requires reply.role != UserRole
    ensures Similar(messages + [Message(UserRole, question, now), reply], question)
  {
    LatestIsRecent(messages, Message(UserRole, question, now), reply);
    SimilarIfLastMatches(messages + [Message(UserRole, question, now), reply], question);
  }

  /** A question equal to the latest recent user message is similar. */
  lemma SimilarIfLastMatches(messages: seq<Message>, question: string)
    requires RecentUserMessages(messages) != []
    requires RecentUserMessages(messages)[|RecentUserMessages(messages)| - 1].content == question
    ensures Similar(messages, question)
  {
    var recent := RecentUserMessages(messages);
    SimilarMeaning(messages, question);
    assert recent[|recent| - 1] in recent;
  }

  /** The latest user message is the last of the recent ones, whatever non-user message follows it. */
  lemma LatestIsRecent(messages: seq<Message>, m: Message, reply: Message)
    requires m.role == UserRole && reply.role != UserRole
    ensures var recent := RecentUserMessages(messages + [m, reply]);
      recent != [] && recent[|recent| - 1] == m
  {
    assert messages + [m, reply] == (messages + [m]) + [reply];
    FilterPush(messages + [m], reply, IsUser);
    FilterPush(messages, m, IsUser);
    SliceLastEnds(Filter(messages, IsUser) + [m], RecentWindow);
  }
}
