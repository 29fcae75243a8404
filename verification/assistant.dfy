/** The chat pop-up (frontend/src/components/PopupAssistant.tsx): sending a
    message, the streamed reply written into a placeholder message, the
    error text that replaces it, and when the quick-action buttons show. */
module Assistant {
  import opened Base
  import opened Text

  datatype Sender = User | Bot

  /** A chat message; ids are `Date.now() + Math.random()` values, so reals. */
  datatype Message = Message(id: real, text: string, sender: Sender)

  /** What the streaming call throws: an `Error` object, or anything else. */
  datatype Thrown = ErrorObject(message: string) | OtherValue

  const Greeting := Message(1.0, "need more help?", Bot)
  const SendFailedText := "Failed to send message, please try again later."

  /** The four quick-action prompts. */
  const QuickActions: seq<string> := [
    "What is this platform?", "How to create a trade?", "How to accept a trade?", "What are the main features?"]

  /** The message a chunk is written into: the tracked id, sent by the assistant. */
  predicate Receives(m: Message, tracked: Option<real>)
  {
    tracked.Some? && m.id == tracked.value && m.sender == Bot
  }

  /** One chunk callback: the receiving messages get the chunk appended. */
  function WithChunk(msgs: seq<Message>, tracked: Option<real>, chunk: string): (r: seq<Message>)
    ensures |r| == |msgs|
    ensures forall i :: 0 <= i < |msgs| ==> r[i].id == msgs[i].id && r[i].sender == msgs[i].sender
    ensures forall i :: 0 <= i < |msgs| && !Receives(msgs[i], tracked) ==> r[i] == msgs[i]
    ensures forall i :: 0 <= i < |msgs| && Receives(msgs[i], tracked) ==> r[i].text == msgs[i].text + chunk
    ensures tracked.None? || chunk == "" ==> r == msgs
  {
    var r := seq(|msgs|, i requires 0 <= i < |msgs| =>
      if Receives(msgs[i], tracked) then msgs[i].(text := msgs[i].text + chunk) else msgs[i]);
    assert chunk == "" ==> r == msgs by {
      if chunk == "" {
        forall i | 0 <= i < |msgs|
          ensures r[i] == msgs[i]
        {
          assert msgs[i].text + chunk == msgs[i].text;
        }
      }
    }
    r
  }

  /** The chunks joined in arrival order. */
  function Concat(chunks: seq<string>): string
  {
    if chunks == [] then "" else Concat(chunks[..|chunks| - 1]) + chunks[|chunks| - 1]
  }

  /** The chunk callbacks for `chunks`, in arrival order. */
  function WithChunks(msgs: seq<Message>, tracked: Option<real>, chunks: seq<string>): (r: seq<Message>)
    ensures |r| == |msgs|
  {
    if chunks == [] then msgs
    else WithChunk(WithChunks(msgs, tracked, chunks[..|chunks| - 1]), tracked, chunks[|chunks| - 1])
  }

  /** After chunks c1..cn a receiving message holds its old text followed by
      c1 + ... + cn; every other message is unchanged. */
  lemma {:induction false} WithChunksConcatenates(msgs: seq<Message>, tracked: Option<real>, chunks: seq<string>)
    ensures forall i :: 0 <= i < |msgs| ==>
      WithChunks(msgs, tracked, chunks)[i]
        == if Receives(msgs[i], tracked) then msgs[i].(text := msgs[i].text + Concat(chunks)) else msgs[i]
  {
    if chunks != [] {
      var init := chunks[..|chunks| - 1];
      var last := chunks[|chunks| - 1];
      WithChunksConcatenates(msgs, tracked, init);
      forall i | 0 <= i < |msgs| && Receives(msgs[i], tracked)
        ensures WithChunks(msgs, tracked, chunks)[i].text == msgs[i].text + Concat(chunks)
      {
        assert msgs[i].text + Concat(init) + last == msgs[i].text + (Concat(init) + last);
      }
    }
  }

  /** The catch block: every message with the tracked id, whoever sent it,
      gets `text` in place of its own. */
  function WithText(msgs: seq<Message>, tracked: Option<real>, text: string): (r: seq<Message>)
    ensures |r| == |msgs|
    ensures forall i :: 0 <= i < |msgs| ==> r[i].id == msgs[i].id && r[i].sender == msgs[i].sender
    ensures forall i :: 0 <= i < |msgs| && tracked.Some? && msgs[i].id == tracked.value ==> r[i].text == text
    ensures forall i :: 0 <= i < |msgs| && !(tracked.Some? && msgs[i].id == tracked.value) ==> r[i] == msgs[i]
    ensures tracked.None? ==> r == msgs
  {
    seq(|msgs|, i requires 0 <= i < |msgs| =>
      if tracked.Some? && msgs[i].id == tracked.value then msgs[i].(text := text) else msgs[i])
  }

  /** Writing the same text over the tracked message twice is writing it once. */
  lemma WithTextIdempotent(msgs: seq<Message>, tracked: Option<real>, text: string)
    ensures WithText(WithText(msgs, tracked, text), tracked, text) == WithText(msgs, tracked, text)
  {
  }

  /** `error instanceof Error ? error.message : 'Failed to send ...'`. */
  function ErrorText(e: Thrown): string
  {
    match e
    case ErrorObject(message) => message
    case OtherValue => SendFailedText
  }

  /** `customMessage || message.trim()`. */
  function MessageToSend(custom: Option<string>, input: string): string
  {
    if custom.Some? && custom.value != "" then custom.value else Trim(input)
  }

  /** The messages after a whole send that started from `msgs`: the user's
      message and the placeholder appended, the chunks streamed into the
      placeholder, and the error text written over it if the stream failed. */
  function AfterSend(msgs: seq<Message>, text: string, userId: real, replyId: real,
                     chunks: seq<string>, error: Option<Thrown>): (r: seq<Message>)
    ensures |r| == |msgs| + 2
  {
    var streamed := WithChunks(msgs + [Message(userId, text, User), Message(replyId, "", Bot)], Some(replyId), chunks);
    if error.Some? then WithText(streamed, Some(replyId), ErrorText(error.value)) else streamed
  }

  /** The placeholder ends up holding the streamed reply, or the error text
      when the stream failed; the user's message sits just before it. When
      the new ids are fresh, the earlier messages and the user's message are
      untouched. */
  lemma AfterSendShape(msgs: seq<Message>, text: string, userId: real, replyId: real,
                       chunks: seq<string>, error: Option<Thrown>)
    ensures var r := AfterSend(msgs, text, userId, replyId, chunks, error);
      r[|msgs| + 1] == Message(replyId, if error.Some? then ErrorText(error.value) else Concat(chunks), Bot)
    ensures replyId != userId && (forall m :: m in msgs ==> m.id != replyId) ==>
      AfterSend(msgs, text, userId, replyId, chunks, error)[..|msgs| + 1] == msgs + [Message(userId, text, User)]
  {
    var base := msgs + [Message(userId, text, User), Message(replyId, "", Bot)];
    WithChunksConcatenates(base, Some(replyId), chunks);
    var r := AfterSend(msgs, text, userId, replyId, chunks, error);
    if replyId != userId && (forall m :: m in msgs ==> m.id != replyId) {
      forall i | 0 <= i < |msgs| + 1
        ensures r[i] == base[i]
      {
        assert base[i] == if i < |msgs| then msgs[i] else Message(userId, text, User);
        if i < |msgs| {
          assert msgs[i] in msgs;
        }
      }
      assert base[..|msgs| + 1] == msgs + [Message(userId, text, User)];
    }
  }

  class Popup {
    /** The text input. */
    var input: string
    var messages: seq<Message>
    var isLoading: bool
    /** `assistantMessageIdRef.current`. */
    var trackedId: Option<real>

    /** A reply is streaming exactly when an id is tracked, and then the
        tracked message is the last one, sent by the assistant; the greeting
        is never removed. */
    predicate Valid()
      reads this
    {
      |messages| >= 1
      && (isLoading <==> trackedId.Some?)
      && (trackedId.Some? ==> messages[|messages| - 1].id == trackedId.value && messages[|messages| - 1].sender == Bot)
    }

    constructor ()
      ensures Valid()
      ensures input == "" && messages == [Greeting] && !isLoading && trackedId.None?
    {
      input := "";
      messages := [Greeting];
      isLoading := false;
      trackedId := None;
    }

    /** `showQuickActions`. */
    function ShowQuickActions(): bool
      reads this
    {
      |messages| <= 1 && !isLoading
    }

    method EditInput(text: string)
      modifies this`input
      ensures input == text
    {
      input := text;
    }

    /** The part of `handleSend` before the stream is awaited. Nothing
        happens when there is nothing to send or a reply is streaming;
        otherwise the user's message and an empty placeholder are appended,
        the input is cleared and the placeholder is tracked. */
    method Send(custom: Option<string>, userId: real, replyId: real) returns (started: bool)
      requires Valid()
      modifies this`input, this`messages, this`isLoading, this`trackedId
      ensures Valid()
      ensures started <==> MessageToSend(custom, old(input)) != "" && !old(isLoading)
      ensures !started ==> input == old(input) && messages == old(messages) && isLoading == old(isLoading) && trackedId == old(trackedId)
      ensures started ==>
        (messages == old(messages) + [Message(userId, MessageToSend(custom, old(input)), User), Message(replyId, "", Bot)]
         && input == "" && isLoading && trackedId == Some(replyId))
      ensures started ==> !ShowQuickActions()
    {
      var text := MessageToSend(custom, input);
      if text == "" || isLoading {
        return false;
      }
      messages := messages + [Message(userId, text, User)];
      input := "";
      isLoading := true;
      trackedId := Some(replyId);
      messages := messages + [Message(replyId, "", Bot)];
      started := true;
    }

    /** The chunk callback. */
    method ReceiveChunk(chunk: string)
      requires Valid()
      modifies this`messages
      ensures Valid()
      ensures messages == WithChunk(old(messages), trackedId, chunk)
    {
      messages := WithChunk(messages, trackedId, chunk);
    }

    /** The catch block. */
    method FailStream(e: Thrown)
      requires Valid()
      modifies this`messages
      ensures Valid()
      ensures messages == WithText(old(messages), trackedId, ErrorText(e))
    {
      messages := WithText(messages, trackedId, ErrorText(e));
    }

    /** The finally block. */
    method FinishStream()
      requires Valid()
      modifies this`isLoading, this`trackedId
      ensures Valid()
      ensures !isLoading && trackedId.None?
    {
      isLoading := false;
      trackedId := None;
    }

    /** `handleSend` run to completion: `chunks` are the pieces the stream
        delivers, `error` what it throws after them, if anything. */
    method HandleSend(custom: Option<string>, userId: real, replyId: real, chunks: seq<string>, error: Option<Thrown>)
      requires Valid()
      modifies this`input, this`messages, this`isLoading, this`trackedId
      ensures Valid()
      ensures MessageToSend(custom, old(input)) == "" || old(isLoading) ==>
        input == old(input) && messages == old(messages) && isLoading == old(isLoading) && trackedId == old(trackedId)
      ensures MessageToSend(custom, old(input)) != "" && !old(isLoading) ==>
        (messages == AfterSend(old(messages), MessageToSend(custom, old(input)), userId, replyId, chunks, error)
         && input == "" && !isLoading && trackedId.None?)
      ensures |messages| >= |old(messages)|
      ensures MessageToSend(custom, old(input)) != "" && !old(isLoading) ==> !ShowQuickActions()
    {
      ghost var before := messages;
      var started := Send(custom, userId, replyId);
      if !started {
        return;
      }
      ghost var base := messages;
      for i := 0 to |chunks|
        invariant Valid() && trackedId == Some(replyId) && input == ""
        invariant messages == WithChunks(base, Some(replyId), chunks[..i])
      {
        assert chunks[..i + 1][..i] == chunks[..i];
        ReceiveChunk(chunks[i]);
      }
      assert chunks[..|chunks|] == chunks;
      if error.Some? {
        FailStream(error.value);
      }
      FinishStream();
    }
  }
}
