/**
 * Worked examples of the two scripted responders: questions whose answer
 * shows the rule order at work, and questions no rule matches. The facts
 * about each literal question are established in a lemma of their own.
 */
module ChatExamples {
  import opened Text
  import AIAssistant
  import AssistantPage

  /** "Show me comedy films": the trigger words it holds. */
  lemma ComedyQuestionWords(q: string)
    requires q == "Show me comedy films"
    ensures Contains(Lower(q), "show") && Contains(Lower(q), "comedy")
  {
    LoweredContainsAt(q, "show", 0);
    LoweredContainsAt(q, "comedy", 8);
  }

  /** "Show me comedy films" contains "show", but the earlier comedy rule wins. */
  lemma ComedyBeatsShow(q: string)
    requires q == "Show me comedy films"
    ensures Contains(Lower(q), "show")
    ensures AIAssistant.Choose(q) == AIAssistant.ComedyMovies
  {
    ComedyQuestionWords(q);
    LoweredLacks(q, "telugu", 't');
  }

  /** The first preset question gets the Telugu reply. */
  lemma TeluguPreset(q: string)
    requires q == "What are today's top Telugu movies?"
    ensures AIAssistant.Choose(q) == AIAssistant.TeluguMovies
  {
    LoweredContainsAt(q, "telugu", 21);
  }

  /** A message that mentions none of the trigger words gets the guidance. */
  lemma GreetingGetsGuidance(q: string)
    requires q == "Hello"
    ensures AIAssistant.Choose(q) == AIAssistant.Guidance
  {
    forall i | 0 <= i < |q|
      ensures q[i] != 't' && q[i] != 'c' && q[i] != 'v' && q[i] != 's' && q[i] != 'r' && q[i] != 'a'
      ensures q[i] != 'T' && q[i] != 'C' && q[i] != 'V' && q[i] != 'S' && q[i] != 'R' && q[i] != 'A'
    {
    }
    LoweredLacks(q, "telugu", 't');
    LoweredLacks(q, "comedy", 'c');
    LoweredLacks(q, "evening", 'v');
    LoweredLacks(q, "show", 's');
    LoweredLacks(q, "rating", 'r');
    LoweredLacks(q, "best", 's');
    LoweredLacks(q, "action", 'a');
    LoweredLacks(q, "imax", 'a');
  }

  /** "How do I cancel my booking?": the trigger words it holds. */
  lemma CancelQuestionWords(q: string)
    requires q == "How do I cancel my booking?"
    ensures Contains(Lower(q), "cancel") && Contains(Lower(q), "booking")
  {
    LoweredContainsAt(q, "cancel", 9);
    LoweredContainsAt(q, "booking", 19);
  }

  /** "How do I cancel my booking?" has no 'v' and no 'f', so neither "movie" nor "film". */
  lemma CancelQuestionLacksTitles(q: string)
    requires q == "How do I cancel my booking?"
    ensures !Contains(Lower(q), "movie") && !Contains(Lower(q), "film")
  {
    forall i | 0 <= i < |q|
      ensures q[i] != 'v' && q[i] != 'V' && q[i] != 'f' && q[i] != 'F'
    {
    }
    LoweredLacks(q, "movie", 'v');
    LoweredLacks(q, "film", 'f');
  }

  /** "How do I cancel my booking?" mentions cancelling, but the earlier booking rule answers it. */
  lemma CancelBookingGetsBookingHelp(q: string)
    requires q == "How do I cancel my booking?"
    ensures Contains(Lower(q), "cancel")
    ensures AssistantPage.Classify(q) == AssistantPage.BookingHelp
  {
    CancelQuestionWords(q);
    CancelQuestionLacksTitles(q);
  }

  /** "Hello" holds none of the trigger words of the answer chain. */
  lemma HelloLacksTriggers(q: string)
    requires q == "Hello"
    ensures !Contains(Lower(q), "movie") && !Contains(Lower(q), "film")
    ensures !Contains(Lower(q), "booking") && !Contains(Lower(q), "ticket")
    ensures !Contains(Lower(q), "event") && !Contains(Lower(q), "concert") && !Contains(Lower(q), "sports")
    ensures !Contains(Lower(q), "refund") && !Contains(Lower(q), "cancel")
    ensures !Contains(Lower(q), "time") && !Contains(Lower(q), "show")
  {
    forall i | 0 <= i < |q|
      ensures q[i] != 'm' && q[i] != 'f' && q[i] != 'b' && q[i] != 't'
      ensures q[i] != 'v' && q[i] != 'c' && q[i] != 's' && q[i] != 'r'
      ensures q[i] != 'M' && q[i] != 'F' && q[i] != 'B' && q[i] != 'T'
      ensures q[i] != 'V' && q[i] != 'C' && q[i] != 'S' && q[i] != 'R'
    {
    }
    LoweredLacks(q, "movie", 'm');
    LoweredLacks(q, "film", 'f');
    LoweredLacks(q, "booking", 'b');
    LoweredLacks(q, "ticket", 't');
    LoweredLacks(q, "event", 'v');
    LoweredLacks(q, "concert", 'c');
    LoweredLacks(q, "sports", 's');
    LoweredLacks(q, "refund", 'r');
    LoweredLacks(q, "cancel", 'c');
    LoweredLacks(q, "time", 't');
    LoweredLacks(q, "show", 's');
  }

  /** A question with no trigger word is not understood, and the reply quotes it verbatim. */
  lemma UnknownQuestionQuoted(q: string)
    requires q == "Hello"
    ensures AssistantPage.Classify(q) == AssistantPage.NotUnderstood("Hello")
  {
    HelloLacksTriggers(q);
  }
}
