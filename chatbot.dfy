/**
 * The message-list state of the chatbot page: the list of messages, the input box and the
 * loading flag, and the session-storage entry the list is saved to. The `await` inside a send
 * splits it into a start and a completion; the clock (`Date.now()`) is an argument.
 */
module Chatbot {
  import opened Wrappers
  import opened Text
  import opened Numbers
  import opened ChatApi

  datatype Role = User | Assistant

  /** A message without its timestamp. */
  datatype Message = Message(
    id: string, role: Role, content: string,
    recommendations: Option<seq<Recommendation>>, sessionId: Option<string>)

  const Greeting: string := "안녕하세요! 데카트론 제품 분석 챗봇입니다. 궁금한 것이 있으시면 언제든 물어보세요! 🛒"

  const Apology: string := "죄송합니다. 일시적인 오류가 발생했습니다. 잠시 후 다시 시도해주세요."

  /** `initialMessages`: the greeting alone. */
  const InitialMessages: seq<Message> := [Message("1", Assistant, Greeting, None, None)]

  /**
   * The `chatbot-messages` entry of session storage: absent (or the empty string), present but not
   * readable as a message list, or a saved list.
   */
  datatype Stored = Absent | Unreadable | Saved(messages: seq<Message>)

  /** How the chat call settled: with a reply, or with any thrown error. */
  datatype Reply = Answered(response: ChatResponse) | Failed

  /** What `loadMessages` sets the list to. */
  function Loaded(stored: Stored): (msgs: seq<Message>)
    ensures stored.Saved? ==> msgs == stored.messages
    ensures !stored.Saved? ==> msgs == InitialMessages
  {
    if stored.Saved? then stored.messages else InitialMessages
  }

  /** The save effect: the list is written only when it is not empty. */
  function Persisted(stored: Stored, messages: seq<Message>): (after: Stored)
    ensures messages != [] ==> after == Saved(messages)
    ensures messages == [] ==> after == stored
  {
    if |messages| > 0 then Saved(messages) else stored
  }

  /** Reloading after the save effect gives back a non-empty list, and changes nothing about an empty one. */
  lemma ReloadRestoresSaved(stored: Stored, messages: seq<Message>)
    ensures messages != [] ==> Loaded(Persisted(stored, messages)) == messages
    ensures messages == [] ==> Loaded(Persisted(stored, messages)) == Loaded(stored)
  {
  }

  /** The guard of `handleSendMessage`: some non-whitespace input and no send in progress. */
  function Accepts(input: string, isLoading: bool): (ok: bool)
    ensures ok <==> !isLoading && exists i :: 0 <= i < |input| && !IsJsWhitespace(input[i])
  {
    TrimEmpty(input);
    !isLoading && Trim(input) != ""
  }

  function UserMessage(input: string, now: int): Message
  {
    Message(IntToString(now), User, Trim(input), None, None)
  }

  /** The assistant message appended when the call settles at time `now`. */
  function ReplyMessage(reply: Reply, now: int): Message
  {
    match reply
    case Answered(r) => Message(IntToString(now + 1), Assistant, r.answer, Some(r.recommendations), Some(r.sessionId))
    case Failed => Message(IntToString(now + 1), Assistant, Apology, None, None)
  }

  /**
   * The user message carries the trimmed input, which is not empty when the send is accepted;
   * the reply carries the answer with its recommendations and session, or the fixed apology
   * without recommendations.
   */
  lemma MessagesOfASend(input: string, reply: Reply, now: int, later: int)
    ensures UserMessage(input, now).role == User && UserMessage(input, now).content == Trim(input)
    ensures Accepts(input, false) ==> UserMessage(input, now).content != ""
    ensures ReplyMessage(reply, later).role == Assistant
    ensures reply.Answered? ==>
      && ReplyMessage(reply, later).content == reply.response.answer
      && ReplyMessage(reply, later).recommendations == Some(reply.response.recommendations)
      && ReplyMessage(reply, later).sessionId == Some(reply.response.sessionId)
    ensures reply.Failed? ==>
      ReplyMessage(reply, later).content == Apology && ReplyMessage(reply, later).recommendations.None?
  {
  }

  /**
   * The two messages of a send share an id exactly when the clock read at completion is one
   * millisecond before the one read at the start.
   */
  lemma SendIdsCollide(input: string, reply: Reply, now: int, later: int)
    ensures UserMessage(input, now).id == ReplyMessage(reply, later).id <==> later + 1 == now
  {
    if UserMessage(input, now).id == ReplyMessage(reply, later).id {
      IntToStringInjective(now, later + 1);
    }
  }

  class ChatPage {
    var messages: seq<Message>
    var inputValue: string
    var isLoading: bool
    var storage: Stored

    /** The first render: an empty list, an empty input, not loading; `stored` is what session storage holds. */
    constructor(stored: Stored)
      ensures messages == [] && inputValue == "" && !isLoading && storage == stored
    {
      messages := [];
      inputValue := "";
      isLoading := false;
      storage := stored;
    }

    /** The mount effect `loadMessages`. */
    method LoadMessages()
      modifies this
      ensures messages == Loaded(storage)
      ensures inputValue == old(inputValue) && isLoading == old(isLoading) && storage == old(storage)
    {
      messages := Loaded(storage);
    }

    /** The effect that runs after every change of `messages`. */
    method SaveMessages()
      modifies this
      ensures storage == Persisted(old(storage), messages)
      ensures messages == old(messages) && inputValue == old(inputValue) && isLoading == old(isLoading)
    {
      if |messages| > 0 {
        storage := Saved(messages);
      }
    }

    /** Typing into the input box. */
    method SetInput(text: string)
      modifies this
      ensures inputValue == text
      ensures messages == old(messages) && isLoading == old(isLoading) && storage == old(storage)
    {
      inputValue := text;
    }

    /** `handleSendMessage` up to its `await`: a guarded append of the user message. */
    method StartSend(now: int) returns (accepted: bool)
      modifies this
      ensures accepted <==> Accepts(old(inputValue), old(isLoading))
      ensures accepted ==>
        && messages == old(messages) + [UserMessage(old(inputValue), now)]
        && inputValue == "" && isLoading
      ensures !accepted ==>
        messages == old(messages) && inputValue == old(inputValue) && isLoading == old(isLoading)
      ensures storage == old(storage)
    {
      if !Accepts(inputValue, isLoading) {
        return false;
      }
      var userMessage := UserMessage(inputValue, now);
      messages := messages + [userMessage];
      inputValue := "";
      isLoading := true;
      return true;
    }

    /** `handleSendMessage` after its `await`: exactly one assistant message, then `isLoading` is cleared. */
    method CompleteSend(reply: Reply, now: int)
      requires isLoading
      modifies this
      ensures messages == old(messages) + [ReplyMessage(reply, now)]
      ensures !isLoading
      ensures inputValue == old(inputValue) && storage == old(storage)
    {
      messages := messages + [ReplyMessage(reply, now)];
      isLoading := false;
    }

    /**
     * A whole send with nothing else happening during the `await`: either nothing changes, or
     * the list grows by exactly the user message and then the reply, the earlier messages are
     * kept, and the page is no longer loading.
     */
    method SendMessage(now: int, reply: Reply, later: int) returns (accepted: bool)
      modifies this
      ensures accepted <==> Accepts(old(inputValue), old(isLoading))
      ensures accepted ==>
        && |messages| == |old(messages)| + 2
        && messages[..|old(messages)|] == old(messages)
        && messages[|old(messages)|] == UserMessage(old(inputValue), now)
        && messages[|old(messages)| + 1] == ReplyMessage(reply, later)
        && inputValue == "" && !isLoading
      ensures !accepted ==>
        messages == old(messages) && inputValue == old(inputValue) && isLoading == old(isLoading)
      ensures storage == old(storage)
    {
      accepted := StartSend(now);
      if accepted {
        CompleteSend(reply, later);
      }
    }

    /** `handleKeyPress`: Enter without Shift sends, every other key leaves the state alone. */
    method HandleKeyPress(key: string, shiftKey: bool, now: int, reply: Reply, later: int) returns (sent: bool)
      modifies this
      ensures !(key == "Enter" && !shiftKey) ==>
        !sent && messages == old(messages) && inputValue == old(inputValue) && isLoading == old(isLoading)
      ensures key == "Enter" && !shiftKey ==> (sent <==> Accepts(old(inputValue), old(isLoading)))
      ensures sent ==>
        && |messages| == |old(messages)| + 2
        && messages[..|old(messages)|] == old(messages)
        && messages[|old(messages)|] == UserMessage(old(inputValue), now)
        && messages[|old(messages)| + 1] == ReplyMessage(reply, later)
        && inputValue == "" && !isLoading
      ensures !sent ==>
        messages == old(messages) && inputValue == old(inputValue) && isLoading == old(isLoading)
      ensures storage == old(storage)
    {
      sent := false;
      if key == "Enter" && !shiftKey {
        sent := SendMessage(now, reply, later);
      }
    }

    /** `clearChatHistory`: the list becomes the greeting alone and the stored entry is removed. */
    method ClearHistory()
      modifies this
      ensures messages == InitialMessages && storage == Absent
      ensures inputValue == old(inputValue) && isLoading == old(isLoading)
    {
      messages := InitialMessages;
      storage := Absent;
    }
  }
}
