/** The trading assistant of `src/components/AIChat.tsx`: a fixed keyword
    rule that picks one of four canned replies, and the conversation that
    only ever grows by the user's trimmed message and the reply to it. */
module AIChat {
  import opened Wrappers
  import opened Text

  datatype Role = Assistant | User

  datatype Message = Message(role: Role, content: string)

  const Greeting: string := "Hello! I'm your AI trading assistant. I can help you understand market trends, trading strategies, and answer your financial questions. How can I assist you today?"

  const NoRecommendationReply: string := "I apologize, but I cannot provide specific stock recommendations. However, I can help you understand how to research stocks, analyze market trends, and develop your own investment strategy. Would you like to learn more about fundamental or technical analysis?"

  const DownturnReply: string := "Market downturns are a normal part of the economic cycle. The best strategy is to maintain a diversified portfolio, invest for the long term, and avoid making emotional decisions. Would you like to learn more about portfolio diversification strategies?"

  const BeginnerReply: string := "For beginners in trading, I recommend starting with these key steps:\n\n1. Learn the basics of financial markets\n2. Start with a small amount you can afford to lose\n3. Practice with paper trading\n4. Understand risk management\n5. Diversify your portfolio\n\nWould you like me to explain any of these points in more detail?"

  const FallbackReply: string := "I understand you're interested in trading. Could you please be more specific about what you'd like to know? I can help with market analysis, trading strategies, risk management, or general financial concepts."

  predicate AsksRecommendation(lower: string) {
    Contains(lower, "stock") && Contains(lower, "recommend")
  }

  predicate AsksAboutCrash(lower: string) {
    Contains(lower, "market") && Contains(lower, "crash")
  }

  predicate AsksAsBeginner(lower: string) {
    Contains(lower, "beginner") || Contains(lower, "start")
  }

  /** `simulateAIResponse(message)`: the rules are tried in order on the
      lower-cased message and the first that matches answers. */
  function SimulateAIResponse(message: string): string {
    var lower := ToLower(message);
    if AsksRecommendation(lower) then NoRecommendationReply
    else if AsksAboutCrash(lower) then DownturnReply
    else if AsksAsBeginner(lower) then BeginnerReply
    else FallbackReply
  }

  /** Each reply is given exactly when its rule is the first to match. */
  lemma ReplyPriority(message: string)
    ensures var lower := ToLower(message);
      var r := SimulateAIResponse(message);
      && (r == NoRecommendationReply <==> AsksRecommendation(lower))
      && (r == DownturnReply <==> !AsksRecommendation(lower) && AsksAboutCrash(lower))
      && (r == BeginnerReply <==> !AsksRecommendation(lower) && !AsksAboutCrash(lower) && AsksAsBeginner(lower))
      && (r == FallbackReply <==> !AsksRecommendation(lower) && !AsksAboutCrash(lower) && !AsksAsBeginner(lower))
  {
  }

  /** The reply does not depend on how the message is cased. */
  lemma ReplyIgnoresCase(message: string)
    ensures SimulateAIResponse(ToUpper(message)) == SimulateAIResponse(message)
  {
    ToLowerIgnoresCase(message);
  }

  /** A keyword anywhere in the message, in any case, triggers its rule:
      "Where do I START?" gets the beginner reply. */
  lemma KeywordAnywhere(before: string, after: string)
    requires !AsksRecommendation(ToLower(before + "START" + after))
    requires !AsksAboutCrash(ToLower(before + "START" + after))
    ensures SimulateAIResponse(before + "START" + after) == BeginnerReply
  {
    var m := before + "START" + after;
    var lower := ToLower(m);
    assert lower[|before|..|before| + 5] == "start";
    assert OccursAt(lower, "start", |before|);
    ContainsIffOccurs(lower, "start");
  }

  /** The component's state: the conversation, the input field and the
      flag that blocks a second submission while a reply is pending. */
  class ChatSession {
    var messages: seq<Message>
    var input: string
    var isLoading: bool

    /** The conversation opens with the assistant's greeting alone. */
    constructor()
      ensures messages == [Message(Assistant, Greeting)]
      ensures input == "" && !isLoading
    {
      messages := [Message(Assistant, Greeting)];
      input := "";
      isLoading := false;
    }

    /** Typing into the input field. */
    method SetInput(text: string)
      modifies this
      ensures input == text && messages == old(messages) && isLoading == old(isLoading)
    {
      input := text;
    }

    /** `handleSubmit` up to its first `await`: a blank input or a pending
      reply changes nothing; otherwise the trimmed input is appended as the
      user's message, the field is cleared and the flag raised. */
    method Submit() returns (sent: Option<string>)
      modifies this
      ensures IsBlank(old(input)) || old(isLoading) ==>
        sent == None && messages == old(messages) && input == old(input) && isLoading == old(isLoading)
      ensures !IsBlank(old(input)) && !old(isLoading) ==>
        && sent == Some(Trim(old(input)))
        && messages == old(messages) + [Message(User, Trim(old(input)))]
        && input == "" && isLoading
    {
      if IsBlank(input) || isLoading {
        return None;
      }
      var userMessage := Trim(input);
      input := "";
      messages := messages + [Message(User, userMessage)];
      isLoading := true;
      return Some(userMessage);
    }

    /** The rest of `handleSubmit`, after the one-second delay: the reply is
      appended and the flag lowered. */
    method ReceiveReply(userMessage: string)
      modifies this
      ensures messages == old(messages) + [Message(Assistant, SimulateAIResponse(userMessage))]
      ensures !isLoading && input == old(input)
    {
      messages := messages + [Message(Assistant, SimulateAIResponse(userMessage))];
      isLoading := false;
    }

    /** `handleSubmit` as a whole, when no other event comes between its two
      halves: the conversation gains the user's message and its reply, or
      nothing at all. */
    method HandleSubmit()
      modifies this
      ensures old(messages) <= messages
      ensures IsBlank(old(input)) || old(isLoading) ==>
        messages == old(messages) && input == old(input) && isLoading == old(isLoading)
      ensures !IsBlank(old(input)) && !old(isLoading) ==>
        && messages == old(messages) + [Message(User, Trim(old(input))),
                                        Message(Assistant, SimulateAIResponse(Trim(old(input))))]
        && input == "" && !isLoading
    {
      if IsBlank(input) || isLoading {
        return;
      }
      var sent := Submit();
      ReceiveReply(sent.value);
    }
  }
}
