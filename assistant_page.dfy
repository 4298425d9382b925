/**
 * Assistant.tsx: the full-page CineTime assistant. `getBotResponse` is a
 * first-match chain over the lowered question whose fallback quotes the
 * question as typed. `handleSubmit` ignores blank input, appends the user's
 * message with id `messages.length + 1`, clears the input and sets
 * `isLoading`; when the simulated call returns, the reply (or the error
 * message) is appended with id `messages.length + 2`, both lengths taken
 * before the submit, and `isLoading` is cleared.
 */
module AssistantPage {
  import opened Text
  import opened Wrappers
  import opened ChatRules

  const Welcome: string := "Hello! I'm your CineTime assistant. How can I help you today?"
  /** The message appended when the call fails. */
  const ErrorReply: string := "I'm sorry, I'm having trouble responding right now. Please try again later."

  const FallbackOpening: string := "I understand you're asking about: \""
  const FallbackClosing: string := "\"\n\nI can help you with:\n\U{2022} Finding movies and events\n\U{2022} Booking tickets\n\U{2022} Managing your bookings\n\U{2022} Showtimes and venue information\n\U{2022} Refund and cancellation policies\n\nCould you please be more specific about what you'd like to know?"

  const QuickQuestions: seq<string> := [
    "Show me movies playing today",
    "Help me find my booking",
    "What events are happening this weekend?",
    "How do I cancel my booking?",
    "Show me movie showtimes",
    "What's the refund policy?"
  ]

  /** The answers `getBotResponse` can give; the last one quotes the question. */
  datatype Answer = MoviesInfo | BookingHelp | EventsInfo | RefundPolicy | ShowtimesInfo | NotUnderstood(question: string)

  /** The fallback quotes the question exactly as it was typed, not lowered. */
  function Fallback(question: string): (r: string)
    ensures |r| == |FallbackOpening| + |question| + |FallbackClosing|
    ensures r[..|FallbackOpening|] == FallbackOpening
    ensures r[|FallbackOpening|..|FallbackOpening| + |question|] == question
    ensures r[|FallbackOpening| + |question|..] == FallbackClosing
  {
    FallbackOpening + question + FallbackClosing
  }

  /** The text of each answer. */
  function AnswerText(answer: Answer): string
  {
    match answer
    case MoviesInfo => "I can help you find movies! We have great movies playing in Hyderabad including Spider-Man: No Way Home, Dune: Part Two, and Oppenheimer. Would you like me to show you showtimes or help you book tickets?"
    case BookingHelp => "For booking-related queries, you can:\n\n\U{2022} View your bookings in the 'My Bookings' section\n\U{2022} Cancel bookings up to 2 hours before showtime\n\U{2022} Download your tickets from the booking confirmation\n\nWhat specific help do you need with your booking?"
    case EventsInfo => "We have exciting events coming up! Including IPL matches, A.R. Rahman concert, comedy shows, and food festivals. Check out our Sports & Events page for the complete list and booking options."
    case RefundPolicy => "Our refund policy:\n\n\U{2022} Full refund if cancelled 24+ hours before showtime\n\U{2022} 50% refund if cancelled 2-24 hours before\n\U{2022} No refund within 2 hours of showtime\n\nRefunds are processed within 5-7 business days."
    case ShowtimesInfo => "Movie showtimes are typically:\n\n\U{2022} 10:00 AM (Morning)\n\U{2022} 01:00 PM (Afternoon)\n\U{2022} 04:00 PM (Evening)\n\U{2022} 07:00 PM (Night)\n\U{2022} 10:00 PM (Late night)\n\nFor specific movie timings, please check the individual movie page."
    case NotUnderstood(question) => Fallback(question)
  }

  /** The branch `getBotResponse` takes: the lowered question is searched test by test. */
  function Classify(question: string): Answer
  {
    var lowerQuestion := Lower(question);
    if Contains(lowerQuestion, "movie") || Contains(lowerQuestion, "film") then MoviesInfo
    else if Contains(lowerQuestion, "booking") || Contains(lowerQuestion, "ticket") then BookingHelp
    else if Contains(lowerQuestion, "event") || Contains(lowerQuestion, "concert") || Contains(lowerQuestion, "sports") then EventsInfo
    else if Contains(lowerQuestion, "refund") || Contains(lowerQuestion, "cancel") then RefundPolicy
    else if Contains(lowerQuestion, "time") || Contains(lowerQuestion, "show") then ShowtimesInfo
    else NotUnderstood(question)
  }

  /** `getBotResponse(question)`. */
  function BotResponse(question: string): string
  {
    AnswerText(Classify(question))
  }

  /** The chain read as a first-match rule table, in the order of the branches. */
  const ResponseRules: seq<Rule<Answer>> := [
    Rule(["movie", "film"], MoviesInfo),
    Rule(["booking", "ticket"], BookingHelp),
    Rule(["event", "concert", "sports"], EventsInfo),
    Rule(["refund", "cancel"], RefundPolicy),
    Rule(["time", "show"], ShowtimesInfo)
  ]

  /** Each rule of the table fires exactly when the corresponding test of the chain holds. */
  lemma ResponseRulesFire(lower: string)
    ensures Fires(ResponseRules[0], lower) <==> Contains(lower, "movie") || Contains(lower, "film")
    ensures Fires(ResponseRules[1], lower) <==> Contains(lower, "booking") || Contains(lower, "ticket")
    ensures Fires(ResponseRules[2], lower)
            <==> Contains(lower, "event") || Contains(lower, "concert") || Contains(lower, "sports")
    ensures Fires(ResponseRules[3], lower) <==> Contains(lower, "refund") || Contains(lower, "cancel")
    ensures Fires(ResponseRules[4], lower) <==> Contains(lower, "time") || Contains(lower, "show")
  {
    AnyContainsShort(lower, "movie", "film", "");
    AnyContainsShort(lower, "booking", "ticket", "");
    AnyContainsShort(lower, "event", "concert", "sports");
    AnyContainsShort(lower, "refund", "cancel", "");
    AnyContainsShort(lower, "time", "show", "");
  }

  /** When none of the first three rules fires, the chain and the table agree on the rest. */
  lemma LaterRulesAnswer(question: string)
    requires !Fires(ResponseRules[0], Lower(question)) && !Fires(ResponseRules[1], Lower(question))
    requires !Fires(ResponseRules[2], Lower(question))
    ensures Classify(question) == Respond(ResponseRules, Lower(question), NotUnderstood(question))
  {
    var lower := Lower(question);
    ResponseRulesFire(lower);
    if Fires(ResponseRules[3], lower) {
      RespondByRule(ResponseRules, lower, NotUnderstood(question), 3);
    } else if Fires(ResponseRules[4], lower) {
      RespondByRule(ResponseRules, lower, NotUnderstood(question), 4);
    }
  }

  /** The chain is the first-match table whose fallback quotes the question. */
  lemma AnswerIsFirstMatch(question: string)
    ensures Classify(question) == Respond(ResponseRules, Lower(question), NotUnderstood(question))
  {
    var lower := Lower(question);
    var fallback := NotUnderstood(question);
    ResponseRulesFire(lower);
    if Fires(ResponseRules[0], lower) {
      RespondByRule(ResponseRules, lower, fallback, 0);
    } else if Fires(ResponseRules[1], lower) {
      RespondByRule(ResponseRules, lower, fallback, 1);
    } else if Fires(ResponseRules[2], lower) {
      RespondByRule(ResponseRules, lower, fallback, 2);
    } else {
      LaterRulesAnswer(question);
    }
  }

  /** The question is quoted back exactly when no trigger word occurs in it. */
  lemma NotUnderstoodIffNoTrigger(question: string)
    ensures Classify(question) == NotUnderstood(question)
            <==> forall k :: 0 <= k < |ResponseRules| ==> !Fires(ResponseRules[k], Lower(question))
  {
    AnswerIsFirstMatch(question);
    FallbackIffNoRuleFires(ResponseRules, Lower(question), NotUnderstood(question));
  }

  /**
   * Matching ignores case: the question in capitals fires the same rule,
   * and gets the same answer whenever some rule fires.
   */
  lemma TriggersIgnoreCase(question: string)
    ensures FirstFiring(ResponseRules, Lower(Upper(question))) == FirstFiring(ResponseRules, Lower(question))
    ensures FirstFiring(ResponseRules, Lower(question)).Some? ==> Classify(Upper(question)) == Classify(question)
  {
    LowerOfUpper(question);
    AnswerIsFirstMatch(question);
    AnswerIsFirstMatch(Upper(question));
  }

  datatype Sender = User | Bot

  /**
   * What a message says. The user's messages and the welcome are plain text;
   * a bot reply is recorded as the answer it gives (its text is `AnswerText`)
   * or as the failure message.
   */
  datatype Content = Typed(text: string) | Answered(answer: Answer) | Failed

  /** The text shown for a message. */
  function ContentText(content: Content): string
  {
    match content
    case Typed(text) => text
    case Answered(answer) => AnswerText(answer)
    case Failed => ErrorReply
  }

  datatype Message = Message(id: nat, sender: Sender, content: Content)

  /** The bot message for a question: its answer, or the error message when the call failed. */
  function ResponseContent(question: string, failed: bool): (c: Content)
  {
    if failed then Failed else Answered(Classify(question))
  }

  /** Message ids are 1, 2, 3, ... in log order. */
  predicate ConsecutiveIds(log: seq<Message>)
  {
    forall i :: 0 <= i < |log| ==> log[i].id == i + 1
  }

  class AssistantPage {
    var messages: seq<Message>
    var inputMessage: string
    var isLoading: bool
    /** The question of the submit in flight, as `handleSubmit` captured it. */
    var question: string
    /** `messages.length` as the submit in flight saw it. */
    var baseLength: nat

    /** Ids stay consecutive, and while loading the user's message is the last one. */
    predicate Valid()
      reads this
    {
      |messages| >= 1 && ConsecutiveIds(messages)
      && (isLoading ==> |messages| == baseLength + 1)
    }

    constructor ()
      ensures Valid()
      ensures messages == [Message(1, Bot, Typed(Welcome))]
      ensures inputMessage == "" && !isLoading
    {
      messages := [Message(1, Bot, Typed(Welcome))];
      inputMessage := "";
      isLoading := false;
      question := "";
      baseLength := 0;
    }

    /** Typing; the input is disabled while a reply is loading. */
    method SetInput(text: string)
      requires !isLoading
      modifies this
      ensures inputMessage == text
      ensures messages == old(messages) && isLoading == old(isLoading)
      ensures question == old(question) && baseLength == old(baseLength)
    {
      inputMessage := text;
    }

    /** `handleQuickQuestion`: a quick-question button only fills the input. */
    method AskQuickQuestion(k: nat)
      requires k < |QuickQuestions|
      modifies this
      ensures inputMessage == QuickQuestions[k]
      ensures messages == old(messages) && isLoading == old(isLoading)
      ensures question == old(question) && baseLength == old(baseLength)
    {
      inputMessage := QuickQuestions[k];
    }

    /**
     * `handleSubmit` up to the simulated call. The form cannot be submitted
     * while loading: both the input and the Send button are disabled then.
     */
    method HandleSubmit() returns (submitted: bool)
      requires Valid() && !isLoading
      modifies this
      ensures Valid()
      ensures submitted <==> !IsBlank(old(inputMessage))
      ensures !submitted ==> messages == old(messages) && inputMessage == old(inputMessage) && !isLoading
      ensures submitted ==> messages == old(messages) + [Message(|old(messages)| + 1, User, Typed(old(inputMessage)))]
                            && inputMessage == "" && isLoading
                            && question == old(inputMessage) && baseLength == |old(messages)|
    {
      if IsBlank(inputMessage) {
        return false;
      }
      baseLength := |messages|;
      question := inputMessage;
      messages := messages + [Message(|messages| + 1, User, Typed(inputMessage))];
      inputMessage := "";
      isLoading := true;
      submitted := true;
    }

    /**
     * The simulated call returns: the reply, or the error message when it
     * failed, is appended with id `messages.length + 2` of the pre-submit
     * log, and loading ends either way.
     */
    method FinishResponse(failed: bool)
      requires Valid() && isLoading
      modifies this
      ensures Valid()
      ensures !isLoading
      ensures messages == old(messages) + [Message(old(baseLength) + 2, Bot, ResponseContent(old(question), failed))]
      ensures inputMessage == old(inputMessage)
    {
      messages := messages + [Message(baseLength + 2, Bot, ResponseContent(question, failed))];
      isLoading := false;
    }
  }
}
