/**
 * AIAssistant.tsx: the floating movie-assistant widget. A scripted reply is
 * picked by an if/else chain over the lowered user text; the widget keeps an
 * append-only message log that starts with a greeting, an input line, and
 * the open/minimised flags. The one-second reply timer is modelled as a
 * queue of sent messages still waiting for their reply, delivered in order.
 *
 * The chain is modelled in two parts: `Choose` decides which of the six
 * canned replies applies, and `ReplyText` is that reply's text, so that the
 * reasoning about rule order does not have to carry the long texts along.
 */
module AIAssistant {
  import opened Text
  import opened Wrappers
  import opened ChatRules

  const Greeting: string := "Hi! I'm your movie assistant. How can I help you today?"

  /** The reply starts as this prefix and keeps it only when no rule fires. */
  const FallbackPrefix: string := "I understand you're looking for information about movies. "
  const FallbackGuidance: string := "You can ask me about movie recommendations, showtimes, theaters, or ratings. Try one of the quick suggestions below!"

  const PresetQueries: seq<string> := [
    "What are today's top Telugu movies?",
    "Show me comedy films",
    "Which movies have evening shows?",
    "Best rated movies this week",
    "Action movies in IMAX"
  ]

  /** The six replies the widget can give. */
  datatype ReplyKind = TeluguMovies | ComedyMovies | EveningShows | TopRated | ImaxAction | Guidance

  /** The text of each reply; the guidance is the prefix followed by the guidance sentence. */
  function ReplyText(kind: ReplyKind): string
  {
    match kind
    case TeluguMovies => "Here are some popular Telugu movies currently showing: Pushpa 2, RRR, Baahubali 3, and KGF Chapter 3. Would you like showtimes for any of these?"
    case ComedyMovies => "For comedy movies, I recommend Geetha Govindam 2 and Ala Vaikunthapurramuloo 2. Both have great ratings and multiple showtimes available."
    case EveningShows => "Evening shows are available from 5:00 PM to 9:30 PM across all theaters. Popular slots are 7:15 PM and 9:30 PM."
    case TopRated => "Top rated movies this week: RRR (8.9), Baahubali 3 (8.8), Pushpa 2 (8.7), and Rangasthalam 2 (8.6)."
    case ImaxAction => "Action movies in IMAX: RRR, Baahubali 3, KGF Chapter 3, and Pushpa 2 are available at Prasads IMAX with premium sound and visuals."
    case Guidance => FallbackPrefix + FallbackGuidance
  }

  /** The branch the if/else chain takes; each test lowers the message and searches it. */
  function Choose(userMessage: string): ReplyKind
  {
    var lower := Lower(userMessage);
    if Contains(lower, "telugu") then TeluguMovies
    else if Contains(lower, "comedy") then ComedyMovies
    else if Contains(lower, "evening") || Contains(lower, "show") then EveningShows
    else if Contains(lower, "rating") || Contains(lower, "best") then TopRated
    else if Contains(lower, "action") || Contains(lower, "imax") then ImaxAction
    else Guidance
  }

  /** The reply the timer appends for a user message. */
  function Reply(userMessage: string): string
  {
    ReplyText(Choose(userMessage))
  }

  /** The chain read as a first-match rule table, in the order of the branches. */
  const ReplyRules: seq<Rule<ReplyKind>> := [
    Rule(["telugu"], TeluguMovies),
    Rule(["comedy"], ComedyMovies),
    Rule(["evening", "show"], EveningShows),
    Rule(["rating", "best"], TopRated),
    Rule(["action", "imax"], ImaxAction)
  ]

  /** Each rule of the table fires exactly when the corresponding test of the chain holds. */
  lemma ReplyRulesFire(lower: string)
    ensures Fires(ReplyRules[0], lower) <==> Contains(lower, "telugu")
    ensures Fires(ReplyRules[1], lower) <==> Contains(lower, "comedy")
    ensures Fires(ReplyRules[2], lower) <==> Contains(lower, "evening") || Contains(lower, "show")
    ensures Fires(ReplyRules[3], lower) <==> Contains(lower, "rating") || Contains(lower, "best")
    ensures Fires(ReplyRules[4], lower) <==> Contains(lower, "action") || Contains(lower, "imax")
  {
    AnyContainsShort(lower, "telugu", "", "");
    AnyContainsShort(lower, "comedy", "", "");
    AnyContainsShort(lower, "evening", "show", "");
    AnyContainsShort(lower, "rating", "best", "");
    AnyContainsShort(lower, "action", "imax", "");
  }

  /** The if/else chain is the first-match table with the guidance as fallback. */
  lemma ChooseIsFirstMatch(userMessage: string)
    ensures Choose(userMessage) == Respond(ReplyRules, Lower(userMessage), Guidance)
  {
    var lower := Lower(userMessage);
    ReplyRulesFire(lower);
    if Fires(ReplyRules[0], lower) {
      RespondByRule(ReplyRules, lower, Guidance, 0);
    } else if Fires(ReplyRules[1], lower) {
      RespondByRule(ReplyRules, lower, Guidance, 1);
    } else if Fires(ReplyRules[2], lower) {
      RespondByRule(ReplyRules, lower, Guidance, 2);
    } else if Fires(ReplyRules[3], lower) {
      RespondByRule(ReplyRules, lower, Guidance, 3);
    } else if Fires(ReplyRules[4], lower) {
      RespondByRule(ReplyRules, lower, Guidance, 4);
    }
  }

  /** The guidance is given exactly when no trigger word occurs in the lowered message. */
  lemma GuidanceIffNoTrigger(userMessage: string)
    ensures Choose(userMessage) == Guidance
            <==> forall k :: 0 <= k < |ReplyRules| ==> !Fires(ReplyRules[k], Lower(userMessage))
  {
    ChooseIsFirstMatch(userMessage);
    FallbackIffNoRuleFires(ReplyRules, Lower(userMessage), Guidance);
  }

  /** Matching ignores case: the same message in capitals or lowered gets the same reply. */
  lemma ChooseIgnoresCase(userMessage: string)
    ensures Choose(Upper(userMessage)) == Choose(userMessage)
    ensures Choose(Lower(userMessage)) == Choose(userMessage)
  {
    LowerOfUpper(userMessage);
    LowerIdempotent(userMessage);
  }

  /** `presetQueries.slice(0, 3)`, shown only while the log holds just the greeting. */
  function VisiblePresets(messageCount: nat): (presets: seq<string>)
    ensures messageCount == 1 ==> |presets| == 3 && presets == PresetQueries[..3]
    ensures messageCount != 1 ==> presets == []
    ensures forall q :: q in presets ==> q in PresetQueries
  {
    if messageCount == 1 then PresetQueries[..3] else []
  }

  datatype Sender = User | Assistant

  datatype ChatMessage = ChatMessage(sender: Sender, content: string)

  class ChatWidget {
    var isOpen: bool
    var isMinimized: bool
    var messages: seq<ChatMessage>
    var inputMessage: string
    /** User messages whose reply timer has not fired yet, oldest first. */
    var pendingReplies: seq<string>

    /** The log always starts with the greeting. */
    predicate Valid()
      reads this
    {
      |messages| >= 1 && messages[0] == ChatMessage(Assistant, Greeting)
    }

    constructor ()
      ensures Valid()
      ensures !isOpen && !isMinimized
      ensures messages == [ChatMessage(Assistant, Greeting)]
      ensures inputMessage == "" && pendingReplies == []
    {
      isOpen := false;
      isMinimized := false;
      messages := [ChatMessage(Assistant, Greeting)];
      inputMessage := "";
      pendingReplies := [];
    }

    /** The presets the widget shows now. */
    function Presets(): (presets: seq<string>)
      reads this
      ensures |messages| == 1 ==> presets == PresetQueries[..3]
      ensures |messages| != 1 ==> presets == []
    {
      VisiblePresets(|messages|)
    }

    /** The launcher button opens the widget. */
    method Open()
      modifies this
      ensures isOpen
      ensures isMinimized == old(isMinimized) && messages == old(messages)
      ensures inputMessage == old(inputMessage) && pendingReplies == old(pendingReplies)
    {
      isOpen := true;
    }

    /** The minimise button flips `isMinimized`. */
    method ToggleMinimize()
      modifies this
      ensures isMinimized == !old(isMinimized)
      ensures isOpen == old(isOpen) && messages == old(messages)
      ensures inputMessage == old(inputMessage) && pendingReplies == old(pendingReplies)
    {
      isMinimized := !isMinimized;
    }

    /** The close button hides the widget; the conversation is kept. */
    method Close()
      modifies this
      ensures !isOpen
      ensures isMinimized == old(isMinimized) && messages == old(messages)
      ensures inputMessage == old(inputMessage) && pendingReplies == old(pendingReplies)
    {
      isOpen := false;
    }

    /** Typing in the input box. */
    method SetInput(text: string)
      modifies this
      ensures inputMessage == text
      ensures isOpen == old(isOpen) && isMinimized == old(isMinimized)
      ensures messages == old(messages) && pendingReplies == old(pendingReplies)
    {
      inputMessage := text;
    }

    /**
     * `handleSendMessage`: blank input is ignored; otherwise the text is
     * appended as a user message, the input is cleared and a reply is due.
     */
    method SendMessage() returns (sent: bool)
      requires Valid()
      modifies this
      ensures Valid()
      ensures sent <==> !IsBlank(old(inputMessage))
      ensures !sent ==> messages == old(messages) && inputMessage == old(inputMessage)
                        && pendingReplies == old(pendingReplies)
      ensures sent ==> messages == old(messages) + [ChatMessage(User, old(inputMessage))]
                       && inputMessage == ""
                       && pendingReplies == old(pendingReplies) + [old(inputMessage)]
      ensures isOpen == old(isOpen) && isMinimized == old(isMinimized)
    {
      if IsBlank(inputMessage) {
        return false;
      }
      var userMessage := inputMessage;
      inputMessage := "";
      messages := messages + [ChatMessage(User, userMessage)];
      pendingReplies := pendingReplies + [userMessage];
      sent := true;
    }

    /** The oldest reply timer fires: its scripted reply is appended to the log. */
    method DeliverReply()
      requires Valid() && pendingReplies != []
      modifies this
      ensures Valid()
      ensures messages == old(messages) + [ChatMessage(Assistant, Reply(old(pendingReplies)[0]))]
      ensures pendingReplies == old(pendingReplies)[1..]
      ensures isOpen == old(isOpen) && isMinimized == old(isMinimized) && inputMessage == old(inputMessage)
    {
      messages := messages + [ChatMessage(Assistant, Reply(pendingReplies[0]))];
      pendingReplies := pendingReplies[1..];
    }
  }
}
