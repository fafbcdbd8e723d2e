/**
 * The keyword classifier `generateSimpleResponse` that answers chat jobs
 * run through the poll relay.
 */
module SimpleReply {
  import opened Text

  const Greeting := "Hello! I'm your AI assistant in this Roblox game. How can I help you today?"
  const HelpOffer := "I'd be happy to help! I can answer questions, chat with you, or follow simple commands in the game."
  const FollowReply := "Sure, I'll follow you around! Just lead the way and I'll stay close by."
  const StayReply := "Alright, I'll stay right here until you need me to move again."

  /** The replies for a message that matches no keyword; one of them is drawn at random. */
  const GenericReplies := [
    "That's an interesting point! What else would you like to talk about?",
    "I understand what you're saying. How can I assist you further?",
    "Thanks for sharing that with me. Is there anything specific you'd like to know?",
    "I'm processing what you said. Can you tell me more about what you're interested in?",
    "That's good to know! What else is on your mind?",
    "I appreciate you chatting with me. What would you like to do next in the game?"
  ]

  /** The keyword tests, in priority order, on an already lower-cased message. */
  predicate Greets(l: string) { Contains(l, "hello") || Contains(l, "hi") }
  predicate AsksHelp(l: string) { Contains(l, "help") }
  predicate AsksFollow(l: string) { Contains(l, "follow") }
  predicate AsksStay(l: string) { Contains(l, "stop") || Contains(l, "stay") }

  /**
   * `generateSimpleResponse(message)`. `pick` stands for the random draw
   * `Math.floor(Math.random() * 6)`; any natural number selects some generic reply.
   * The first keyword test that succeeds decides the reply, and the reply tells
   * which test that was.
   */
  function GenerateSimpleResponse(message: string, pick: nat): (r: string)
    ensures r == Greeting <==> Greets(ToLower(message))
    ensures r == HelpOffer <==> !Greets(ToLower(message)) && AsksHelp(ToLower(message))
    ensures r == FollowReply <==>
      !Greets(ToLower(message)) && !AsksHelp(ToLower(message)) && AsksFollow(ToLower(message))
    ensures r == StayReply <==>
      !Greets(ToLower(message)) && !AsksHelp(ToLower(message)) && !AsksFollow(ToLower(message))
      && AsksStay(ToLower(message))
    ensures r in GenericReplies <==>
      !Greets(ToLower(message)) && !AsksHelp(ToLower(message)) && !AsksFollow(ToLower(message))
      && !AsksStay(ToLower(message))
  {
    var lower := ToLower(message);
    if Greets(lower) then Greeting
    else if AsksHelp(lower) then HelpOffer
    else if AsksFollow(lower) then FollowReply
    else if AsksStay(lower) then StayReply
    else GenericReplies[pick % |GenericReplies|]
  }

  /** The classifier ignores case: lower-casing the message first gives the same reply. */
  lemma CaseInsensitive(message: string, pick: nat)
    ensures GenerateSimpleResponse(ToLower(message), pick) == GenerateSimpleResponse(message, pick)
  {
    ToLowerIdempotent(message);
  }

  /**
   * "hi" is matched anywhere, not as a word: a message containing "this",
   * "which" or "nothing" gets the greeting, whatever else it asks.
   */
  lemma EmbeddedHiGreets(message: string, word: string, pick: nat)
    requires word in ["this", "which", "nothing"]
    requires Contains(ToLower(message), word)
    ensures GenerateSimpleResponse(message, pick) == Greeting
  {
    if word == "this" {
      assert word[1..3] == "hi";
      ContainsAt(word, "hi", 1);
    } else if word == "which" {
      assert word[1..3] == "hi";
      ContainsAt(word, "hi", 1);
    } else {
      assert word[3..5] == "hi";
      ContainsAt(word, "hi", 3);
    }
    ContainsTransitive(ToLower(message), word, "hi");
  }

  /** "follow" outranks "stop": the first keyword that matches decides the reply. */
  lemma FollowOutranksStop(message: string, pick: nat)
    requires message == "Stop following me"
    ensures AsksStay(ToLower(message))
    ensures GenerateSimpleResponse(message, pick) == FollowReply
  {
    var l := ToLower(message);
    assert l[5] == 'f' && l[6] == 'o' && l[7] == 'l' && l[8] == 'l' && l[9] == 'o' && l[10] == 'w';
    assert l[5..11] == "follow";
    ContainsAt(l, "follow", 5);
    assert l[0] == 's' && l[1] == 't' && l[2] == 'o' && l[3] == 'p';
    assert l[0..4] == "stop";
    ContainsAt(l, "stop", 0);
    forall i | 0 <= i < |l|
      ensures l[i] != 'h'
    {
      assert message[i] != 'h' && message[i] != 'H';
    }
    MissingFirstChar(l, "hello");
    MissingFirstChar(l, "hi");
    MissingFirstChar(l, "help");
  }
}
