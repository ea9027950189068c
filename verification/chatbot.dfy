/**
 * The chat assistant widget: the message list with its greeting, sending
 * a message, the delayed canned reply, the Enter shortcut, the simulated
 * voice input and resetting the conversation. Each timer callback is a
 * step of its own, and the page counts the callbacks still scheduled.
 */
module Chatbot {
  import opened Text

  datatype Sender = User | Bot

  /** A message; `timestamp` is the clock reading in milliseconds when it was made. */
  datatype Message = Message(id: string, text: string, sender: Sender, timestamp: nat)

  const GREETING_TEXT: string := "Hey! I'm your AI assistant. How can I help you today? \U{1F916}\U{2728}"
  const VOICE_TEXT: string := "Hey, this is a voice message!"

  function Greeting(now: nat): (m: Message)
    ensures m.id == "1" && m.sender == Bot && m.text == GREETING_TEXT
  {
    Message("1", GREETING_TEXT, Bot, now)
  }

  /** The canned replies, one of which is picked at random. */
  function BotResponses(): (r: seq<string>)
    ensures |r| == 10
  {
    ["That's interesting! Tell me more about that! \U{1F914}",
     "I'm here to help you with anything you need! \U{1F4AA}",
     "Great question! Let me think about that... \U{1F9E0}",
     "I love your energy! Let's explore this together! \U{2728}",
     "That's a fantastic point! Here's what I think... \U{1F4AD}",
     "You're absolutely right! Here's my take on it... \U{1F3AF}",
     "Wow, that's really cool! Let me share my thoughts... \U{1F31F}",
     "I'm totally vibing with what you're saying! \U{1F525}",
     "That's such a Gen Z moment! I love it! \U{1F60E}",
     "You're speaking my language! Here's what's up... \U{1F680}"]
  }

  /** `e.key === 'Enter' && !e.shiftKey`. */
  predicate SendsOnKey(key: string, shiftKey: bool)
  {
    key == "Enter" && !shiftKey
  }

  /** A message the user can have sent: it is not blank. */
  predicate Sendable(text: string)
  {
    Trim(text) != ""
  }

  /** The send guard `!inputText.trim()` holds exactly for text made only of white space. */
  lemma SendableIffNotBlank(text: string)
    ensures Sendable(text) <==> !IsBlank(text)
  {
    TrimEmptyIffBlank(text);
  }

  class ChatWidget {
    var messages: seq<Message>
    var inputText: string
    var isTyping: bool
    var isListening: bool
    /** Reply callbacks scheduled and not yet run. */
    var pendingReplies: nat
    /** Voice-input callbacks scheduled and not yet run. */
    var pendingVoice: nat

    /**
     * The conversation starts with the greeting, every user message in it
     * was non-blank when sent, and the typing indicator is on only while a
     * reply is still due.
     */
    predicate Valid()
      reads this
    {
      |messages| > 0 && messages[0].id == "1" && messages[0].sender == Bot && messages[0].text == GREETING_TEXT &&
      (forall i :: 0 <= i < |messages| && messages[i].sender == User ==> Sendable(messages[i].text)) &&
      (isTyping ==> pendingReplies > 0)
    }

    constructor (now: nat)
      ensures Valid()
      ensures messages == [Greeting(now)] && inputText == "" && !isTyping && !isListening
      ensures pendingReplies == 0 && pendingVoice == 0
    {
      messages := [Greeting(now)];
      inputText := "";
      isTyping := false;
      isListening := false;
      pendingReplies := 0;
      pendingVoice := 0;
    }

    /** `disabled={!inputText.trim()}` on the send button. */
    predicate SendDisabled()
      reads this
    {
      Trim(inputText) == ""
    }

    /**
     * `handleSendMessage` at clock reading `now`: nothing happens for blank
     * input; otherwise the input is appended unchanged as a user message,
     * the input is cleared, the typing indicator comes on and one reply is
     * scheduled.
     */
    method Send(now: nat)
      requires Valid()
      modifies this
      ensures Valid()
      ensures !Sendable(old(inputText)) ==>
                messages == old(messages) && inputText == old(inputText) && isTyping == old(isTyping) &&
                pendingReplies == old(pendingReplies)
      ensures Sendable(old(inputText)) ==>
                messages == old(messages) + [Message(NatToString(now), old(inputText), User, now)] &&
                inputText == "" && isTyping && pendingReplies == old(pendingReplies) + 1
      ensures isListening == old(isListening) && pendingVoice == old(pendingVoice)
    {
      if Trim(inputText) == "" {
        return;
      }
      messages := messages + [Message(NatToString(now), inputText, User, now)];
      inputText := "";
      isTyping := true;
      pendingReplies := pendingReplies + 1;
    }

    /**
     * A scheduled reply runs at clock reading `now` with the random pick
     * `choice`: exactly one bot message with one of the canned texts is
     * appended and the typing indicator goes off.
     */
    method ReplyArrives(now: nat, choice: nat)
      requires Valid() && pendingReplies > 0 && choice < |BotResponses()|
      modifies this
      ensures Valid()
      ensures messages == old(messages) + [Message(NatToString(now + 1), BotResponses()[choice], Bot, now)]
      ensures messages[|messages| - 1].text in BotResponses()
      ensures !isTyping && pendingReplies == old(pendingReplies) - 1
      ensures inputText == old(inputText) && isListening == old(isListening) && pendingVoice == old(pendingVoice)
    {
      messages := messages + [Message(NatToString(now + 1), BotResponses()[choice], Bot, now)];
      isTyping := false;
      pendingReplies := pendingReplies - 1;
    }

    /**
     * `handleKeyPress`: Enter without Shift sends, with the outcome of `Send`
     * (blank input still changes nothing); any other key does nothing.
     */
    method KeyPress(key: string, shiftKey: bool, now: nat)
      requires Valid()
      modifies this
      ensures Valid()
      ensures !(SendsOnKey(key, shiftKey) && Sendable(old(inputText))) ==>
                messages == old(messages) && inputText == old(inputText) && isTyping == old(isTyping) &&
                pendingReplies == old(pendingReplies)
      ensures SendsOnKey(key, shiftKey) && Sendable(old(inputText)) ==>
                messages == old(messages) + [Message(NatToString(now), old(inputText), User, now)] &&
                inputText == "" && isTyping && pendingReplies == old(pendingReplies) + 1
      ensures isListening == old(isListening) && pendingVoice == old(pendingVoice)
    {
      if key == "Enter" && !shiftKey {
        Send(now);
      }
    }

    /** `toggleListening`: flips listening; only switching it on schedules the voice input. */
    method ToggleListening()
      requires Valid()
      modifies this
      ensures Valid()
      ensures isListening == !old(isListening)
      ensures pendingVoice == if old(isListening) then old(pendingVoice) else old(pendingVoice) + 1
      ensures messages == old(messages) && inputText == old(inputText) && isTyping == old(isTyping)
      ensures pendingReplies == old(pendingReplies)
    {
      var wasListening := isListening;
      isListening := !isListening;
      if !wasListening {
        pendingVoice := pendingVoice + 1;
      }
    }

    /** The scheduled voice input runs: it fills the input with the fixed text, listening or not. */
    method VoiceArrives()
      requires Valid() && pendingVoice > 0
      modifies this
      ensures Valid()
      ensures inputText == VOICE_TEXT && pendingVoice == old(pendingVoice) - 1
      ensures messages == old(messages) && isTyping == old(isTyping) && isListening == old(isListening)
      ensures pendingReplies == old(pendingReplies)
    {
      inputText := VOICE_TEXT;
      pendingVoice := pendingVoice - 1;
    }

    /** `resetChat`: only the greeting is left; the input and any scheduled callbacks are untouched. */
    method ResetChat(now: nat)
      requires Valid()
      modifies this
      ensures Valid()
      ensures messages == [Greeting(now)]
      ensures inputText == old(inputText) && isTyping == old(isTyping) && isListening == old(isListening)
      ensures pendingReplies == old(pendingReplies) && pendingVoice == old(pendingVoice)
    {
      messages := [Greeting(now)];
    }
  }

  /** The voice text can be sent. */
  lemma VoiceTextSendable()
    ensures Sendable(VOICE_TEXT)
  {
    SendableIffNotBlank(VOICE_TEXT);
    assert !IsJsSpace(VOICE_TEXT[0]);
  }
}
