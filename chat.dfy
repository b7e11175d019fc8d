/** The scripted chat companion: the user's message is appended at once and
    a canned reply, picked at random from seven, is appended after a delay. */
module AIBuddyChat {
  import opened Screen
  import opened JsString

  /** A chat message; `id` is the decimal text of `Date.now()` (or of
      `Date.now() + 1` for a reply) and `timestamp` stands for `new Date()`. */
  datatype Message = Message(id: string, text: string, isUser: bool, timestamp: int, emoji: Option<string>)

  const BuddyEmoji: string := "🤖"

  /** The buddy's opening message. */
  function Greeting(): (greeting: string)
    ensures |greeting| > 0
  {
    GreetingText
  }

  /** The greeting's text. Long literals live in constants reached through a
      function, which is cheaper for the verifier than unfolding a function
      body made of them. */
  const GreetingText: string :=
    "Hi there! I'm your MindMate buddy. I'm here to listen, support, and chat with you about anything on your mind. How are you feeling today? 🌸"

  /** The seven canned replies `Math.random` picks from. */
  function Responses(): (rs: seq<string>)
    ensures |rs| == 7
  {
    ResponseTexts
  }

  /** The reply texts, kept as a constant like `GreetingText`. */
  const ResponseTexts: seq<string> := [
    "That sounds really meaningful. Tell me more about how that makes you feel. ✨",
    "I hear you, and I want you to know that your feelings are completely valid. 💜",
    "It takes courage to share that. Thank you for trusting me with your thoughts. 🌿",
    "That's a lot to process. Would you like to talk about what's been most challenging? 🌸",
    "I'm proud of you for reaching out and taking care of your mental health today. 🌟",
    "Sometimes it helps to take a deep breath together. You're doing great! 🧘‍♀️",
    "Your feelings matter, and so do you. What would help you feel supported right now? 💫"
  ]

  /** The four quick-reply chips. */
  function QuickReplies(): (qs: seq<string>)
    ensures |qs| == 4
  {
    [
      "I'm feeling anxious",
      "I need encouragement",
      "I'm grateful today",
      "Tell me something positive"
    ]
  }

  class ChatScreen {
    var messages: seq<Message>
    var inputMessage: string
    var isTyping: bool

    /** The conversation opens with the buddy's greeting. */
    ghost predicate Valid()
      reads this
    {
      |messages| >= 1 && !messages[0].isUser && messages[0].text == Greeting()
    }

    constructor (now: int)
      ensures Valid()
      ensures messages == [Message("1", Greeting(), false, now, Some(BuddyEmoji))]
      ensures inputMessage == "" && !isTyping
    {
      messages := [Message("1", Greeting(), false, now, Some(BuddyEmoji))];
      inputMessage := "";
      isTyping := false;
    }

    /** Typing in the input. */
    method SetInput(value: string)
      modifies this`inputMessage
      ensures inputMessage == value
    {
      inputMessage := value;
    }

    /** A quick-reply chip fills the input and sends nothing. */
    method QuickReply(index: nat)
      requires index < |QuickReplies()|
      modifies this`inputMessage
      ensures inputMessage == QuickReplies()[index]
      ensures messages == old(messages) && isTyping == old(isTyping)
    {
      inputMessage := QuickReplies()[index];
    }

    /** The send button is enabled when the input is not blank. */
    function SendEnabled(): (enabled: bool)
      reads this
      ensures enabled <==> !IsBlank(inputMessage)
    {
      TrimEmptyIffBlank(inputMessage);
      HasText(inputMessage)
    }

    /** The immediate part of `handleSendMessage`: a blank input changes
        nothing; otherwise one user message with the input exactly as typed
        is appended, the input is cleared and the buddy starts typing. */
    method SendMessage(id: string, now: int) returns (sent: bool)
      requires Valid()
      modifies this
      ensures Valid() && old(messages) <= messages
      ensures sent <==> !IsBlank(old(inputMessage))
      ensures sent ==>
        messages == old(messages) + [Message(id, old(inputMessage), true, now, None)] &&
        inputMessage == "" && isTyping
      ensures !sent ==>
        messages == old(messages) && inputMessage == old(inputMessage) && isTyping == old(isTyping)
    {
      TrimEmptyIffBlank(inputMessage);
      if !SendEnabled() {
        return false;
      }
      var userMessage := Message(id, inputMessage, true, now, None);
      messages := messages + [userMessage];
      inputMessage := "";
      isTyping := true;
      sent := true;
    }

    /** The 1500 ms timer of a send: appends one buddy message whose text is
        the response at `pick` (`Math.floor(Math.random() * 7)`), and stops
        the typing indicator. */
    method ReplyTimerFires(id: string, now: int, pick: nat)
      requires Valid()
      requires pick < |Responses()|
      modifies this`messages, this`isTyping
      ensures Valid() && old(messages) <= messages
      ensures messages == old(messages) + [Message(id, Responses()[pick], false, now, Some(BuddyEmoji))]
      ensures !messages[|messages| - 1].isUser && messages[|messages| - 1].text in Responses()
      ensures !isTyping
    {
      var reply := Message(id, Responses()[pick], false, now, Some(BuddyEmoji));
      messages := messages + [reply];
      isTyping := false;
    }
  }
}
