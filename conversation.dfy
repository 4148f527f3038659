/** How the widget and the endpoint fit together: what the server measures
    of a message the widget sent, and which chat histories the endpoint
    accepts. The hook's default transport posts the whole history as UI
    messages, which carry `parts` and no `content`. */
module Conversation {
  import opened Messages
  import opened Text
  import opened Content
  import opened ChatErrors
  import opened ChatRoute
  import opened ChatWidget

  /** A UI message as the endpoint receives it. */
  function Transmit(m: UIMessage): WireItem {
    Object(WireMessage(None, Some(m.parts)))
  }

  /** The request body the widget posts for a chat history. */
  function ChatRequest(history: seq<UIMessage>): Request {
    Json(Array(seq(|history|, i requires 0 <= i < |history| => Transmit(history[i]))))
  }

  /** The summed length of a sequence of strings, split at any point. */
  lemma {:induction false} TotalLengthAppend(a: seq<string>, b: seq<string>)
    ensures TotalLength(a + b) == TotalLength(a) + TotalLength(b)
    decreases |a|
  {
    if |a| == 0 {
      assert a + b == b;
    } else {
      assert (a + b)[1..] == a[1..] + b;
      TotalLengthAppend(a[1..], b);
    }
  }

  /** The shown texts are among the measured texts: the widget shows no
      more characters of a message than the server counts. */
  lemma {:induction false} ShownWithinMeasured(parts: seq<Part>)
    ensures TotalLength(TextParts(parts)) <= TotalLength(PartTexts(parts))
    decreases |parts|
  {
    if |parts| > 0 {
      var n := |parts| - 1;
      var last := parts[n];
      ShownWithinMeasured(parts[..n]);
      assert PartTexts(parts) == PartTexts(parts[..n]) + [PartText(last)];
      TotalLengthAppend(PartTexts(parts[..n]), [PartText(last)]);
      var kept := if IsTextPart(last) then [last.text.value] else [];
      TotalLengthAppend(TextParts(parts[..n]), kept);
      assert TotalLength(kept) <= |PartText(last)| by {
        if IsTextPart(last) {
          assert kept[1..] == [];
        }
      }
      assert [PartText(last)][1..] == [];
    }
  }

  /** A message's displayed text is never longer than the text the endpoint
      measures it by; the two differ only by the parts the widget hides. */
  lemma DisplayedWithinMeasured(m: UIMessage)
    ensures |DisplayedText(m.parts)| <= |ExtractedText(Transmit(m).msg)|
  {
    ShownWithinMeasured(m.parts);
    ConcatLength(TextParts(m.parts));
    ExtractedLength(Transmit(m).msg);
  }

  /** The endpoint measures a message the widget sent by exactly the input
      it was sent with, which is also what its bubble shows. */
  lemma SentInputMeasured(input: string)
    ensures ExtractedText(Transmit(UserMessage(input)).msg) == input
    ensures DisplayedText(UserMessage(input).parts) == input
  {
    UserMessageDisplaysInput(input);
    var parts := UserMessage(input).parts;
    assert PartTexts(parts) == [input];
  }

  /** An input the field lets through (at most 100 characters) passes the
      endpoint's 1000-character guard. */
  lemma TypedInputWithinLimit(input: string)
    requires |input| <= MaxInputLength
    ensures WithinLimit(Transmit(UserMessage(input)))
  {
    SentInputMeasured(input);
  }

  /** The first message of a fresh chat is streamed when the model call
      succeeds, with the prompt and that one message. */
  lemma FirstMessageAccepted(input: string, p: Profile, w: Writing, l: Life)
    requires |input| <= MaxInputLength
    ensures Post(ChatRequest([UserMessage(input)]), p, w, l, Streams).status == 200
  {
    var req := ChatRequest([UserMessage(input)]);
    TypedInputWithinLimit(input);
    assert req.messages.items == [Transmit(UserMessage(input))];
    AcceptedIff(req, p, w, l, Streams);
  }

  /** After five exchanges the history holds ten messages; the next submit
      posts eleven and is answered 400 whatever the messages say. */
  lemma LongHistoryRejected(history: seq<UIMessage>, p: Profile, w: Writing, l: Life, provider: Provider)
    requires |history| > MaxMessagesPerRequest
    ensures Post(ChatRequest(history), p, w, l, provider) == Response(400, Text(TooManyMessagesBody))
  {
    RejectsTooMany(ChatRequest(history).messages.items, p, w, l, provider);
  }

  /** The length guard applies to every message of the history, replies
      included: once a reply whose parts measure more than 1000 characters
      is in the history, and every message before it is within the limit,
      every later request of at most ten messages is answered 400. */
  lemma LongReplyBlocksHistory(history: seq<UIMessage>, k: nat, p: Profile, w: Writing, l: Life, provider: Provider)
    requires |history| <= MaxMessagesPerRequest
    requires k < |history| && |ExtractedText(Transmit(history[k]).msg)| > MaxMessageLength
    requires forall j :: 0 <= j < k ==> WithinLimit(Transmit(history[j]))
    ensures Post(ChatRequest(history), p, w, l, provider) == Response(400, Text(TooLongBody))
  {
    var items := ChatRequest(history).messages.items;
    assert FirstStop(items, k);
    RejectsTooLong(items, k, p, w, l, provider);
  }
}
