/** The chat widget's decision logic: when it is busy, what a message shows,
    when the controls are disabled, how the character counter is coloured,
    what the error banner says, and what submitting does to the input. The
    chat hook's `status`, `messages` and `error` are inputs; its transport
    and its status transitions are not modelled. */
module ChatWidget {
  import opened Messages
  import opened Text

  const MaxInputLength := 100
  const CharCounterThreshold := 70
  const CharWarningThreshold := 80
  const CharDangerThreshold := 90

  const ErrorFallback := "Something went wrong. Please try again."

  // ---------------------------------------------------------------------
  // Status and message display
  // ---------------------------------------------------------------------

  /** The hook is waiting for or receiving an answer. */
  predicate IsLoading(status: string) {
    status == "streaming" || status == "submitted"
  }

  /** A part that is shown: type "text" with a string `text`. */
  predicate IsTextPart(p: Part) {
    p.kind == "text" && p.text.Some?
  }

  /** `parts.filter(isTextPart).map(part => part.text)`. */
  function TextParts(parts: seq<Part>): seq<string>
    decreases |parts|
  {
    if |parts| == 0 then []
    else
      var last := parts[|parts| - 1];
      TextParts(parts[..|parts| - 1]) + (if IsTextPart(last) then [last.text.value] else [])
  }

  /** What a message bubble shows: its text parts' texts, joined with "". */
  function DisplayedText(parts: seq<Part>): string {
    Join(TextParts(parts), "")
  }

  /** Filtering distributes over concatenation. */
  lemma {:induction false} TextPartsAppend(a: seq<Part>, b: seq<Part>)
    ensures TextParts(a + b) == TextParts(a) + TextParts(b)
    decreases |b|
  {
    if |b| == 0 {
      assert a + b == a;
    } else {
      var n := |b| - 1;
      assert (a + b)[..|a + b| - 1] == a + b[..n];
      TextPartsAppend(a, b[..n]);
    }
  }

  /** The kept list has one entry per text part. */
  lemma {:induction false} TextPartsCount(parts: seq<Part>)
    ensures |TextParts(parts)| == |set i | 0 <= i < |parts| && IsTextPart(parts[i])|
    decreases |parts|
  {
    if |parts| > 0 {
      var n := |parts| - 1;
      TextPartsCount(parts[..n]);
      var before := set i | 0 <= i < n && IsTextPart(parts[..n][i]);
      var all := set i | 0 <= i < |parts| && IsTextPart(parts[i]);
      assert before == set i | 0 <= i < n && IsTextPart(parts[i]);
      if IsTextPart(parts[n]) {
        assert all == before + {n};
      } else {
        assert all == before;
      }
    }
  }

  /** A string is kept exactly when some text part carries it. */
  lemma {:induction false} TextPartsMembers(parts: seq<Part>)
    ensures forall s :: s in TextParts(parts) <==>
      exists i :: 0 <= i < |parts| && IsTextPart(parts[i]) && parts[i].text.value == s
    decreases |parts|
  {
    if |parts| > 0 {
      var n := |parts| - 1;
      var init := parts[..n];
      TextPartsMembers(init);
      forall s | s in TextParts(parts)
        ensures exists i :: 0 <= i < |parts| && IsTextPart(parts[i]) && parts[i].text.value == s
      {
        if s in TextParts(init) {
          var i :| 0 <= i < |init| && IsTextPart(init[i]) && init[i].text.value == s;
          assert parts[i] == init[i];
        } else {
          assert IsTextPart(parts[n]) && parts[n].text.value == s;
        }
      }
      forall s | exists i :: 0 <= i < |parts| && IsTextPart(parts[i]) && parts[i].text.value == s
        ensures s in TextParts(parts)
      {
        var i :| 0 <= i < |parts| && IsTextPart(parts[i]) && parts[i].text.value == s;
        if i < n {
          assert init[i] == parts[i];
        }
      }
    }
  }

  /** The displayed text of `a + b` is that of `a` followed by that of `b`. */
  lemma DisplayedTextAppend(a: seq<Part>, b: seq<Part>)
    ensures DisplayedText(a + b) == DisplayedText(a) + DisplayedText(b)
  {
    TextPartsAppend(a, b);
    ConcatAppend(TextParts(a), TextParts(b));
  }

  /** A single part shows its text if it is a text part, and nothing otherwise. */
  lemma DisplayedSingle(p: Part)
    ensures DisplayedText([p]) == if IsTextPart(p) then p.text.value else ""
  {
    assert [p][..0] == [];
    assert TextParts([p]) == if IsTextPart(p) then [p.text.value] else [];
  }

  /** A part that is not a text part contributes nothing, wherever it is. */
  lemma NonTextPartIgnored(a: seq<Part>, p: Part, b: seq<Part>)
    requires !IsTextPart(p)
    ensures DisplayedText(a + [p] + b) == DisplayedText(a + b)
  {
    DisplayedTextAppend(a + [p], b);
    DisplayedTextAppend(a, [p]);
    DisplayedTextAppend(a, b);
    DisplayedSingle(p);
  }

  /** A text part contributes exactly its text. */
  lemma TextPartShown(a: seq<Part>, s: string, b: seq<Part>)
    ensures DisplayedText(a + [Part("text", Some(s))] + b) == DisplayedText(a) + s + DisplayedText(b)
  {
    var p := Part("text", Some(s));
    DisplayedTextAppend(a + [p], b);
    DisplayedTextAppend(a, [p]);
    DisplayedSingle(p);
  }

  datatype Role = User | Assistant

  /** `message.role === "user" ? "user" : "assistant"`: every role other
      than "user" (such as "system" or "assistant") is drawn as the assistant. */
  function DisplayRole(role: string): (r: Role)
    ensures r == User <==> role == "user"
    ensures r == Assistant <==> role != "user"
  {
    if role == "user" then User else Assistant
  }

  /** One message bubble: which side it is drawn on and its text. */
  datatype Bubble = Bubble(role: Role, text: string)

  /** The messages area: the empty-state prompt, or one bubble per message
      followed by the typing indicator while loading. */
  datatype Transcript = EmptyState | Thread(bubbles: seq<Bubble>, typing: bool)

  function Render(messages: seq<UIMessage>, status: string): Transcript {
    if |messages| == 0 then EmptyState
    else Thread(seq(|messages|, i requires 0 <= i < |messages| =>
                  Bubble(DisplayRole(messages[i].role), DisplayedText(messages[i].parts))),
                IsLoading(status))
  }

  // ---------------------------------------------------------------------
  // Controls
  // ---------------------------------------------------------------------

  /** `!input.trim()`: nothing but whitespace has been typed. */
  predicate IsBlank(input: string) {
    Trim(input) == ""
  }

  /** The send button's `disabled`; the same condition makes submitting do
      nothing. */
  predicate SendDisabled(status: string, input: string) {
    IsLoading(status) || IsBlank(input)
  }

  /** The input field's `disabled`. */
  predicate InputDisabled(status: string) {
    IsLoading(status)
  }

  /** The button is disabled exactly while loading or when every character
      of the input is whitespace; whenever the field is disabled, so is the
      button. */
  lemma SendDisabledIff(status: string, input: string)
    ensures SendDisabled(status, input) <==> IsLoading(status) || AllWhitespace(input)
    ensures InputDisabled(status) ==> SendDisabled(status, input)
  {
    TrimEmptyIffAllWhitespace(input);
  }

  /** The character counter: hidden, or shown in grey, orange or red. */
  datatype Counter = Hidden | Grey | Orange | Red

  function CounterStyle(length: nat): (c: Counter)
    ensures c == Hidden <==> length <= CharCounterThreshold
    ensures c == Grey <==> CharCounterThreshold < length < CharWarningThreshold
    ensures c == Orange <==> CharWarningThreshold <= length < CharDangerThreshold
    ensures c == Red <==> CharDangerThreshold <= length
  {
    if length > CharCounterThreshold then
      if length >= CharDangerThreshold then Red
      else if length >= CharWarningThreshold then Orange
      else Grey
    else Hidden
  }

  /** The counter's severity, for comparing styles. */
  function Severity(c: Counter): nat {
    match c
    case Hidden => 0
    case Grey => 1
    case Orange => 2
    case Red => 3
  }

  /** Typing more never makes the counter less severe. */
  lemma CounterMonotone(m: nat, n: nat)
    requires m <= n
    ensures Severity(CounterStyle(m)) <= Severity(CounterStyle(n))
  {
  }

  /** The text of the error banner, shown only when the hook reports an
      error: "Error: " and the error's message, or the fallback when the
      message is empty. */
  function ErrorBanner(error: Option<string>): (r: Option<string>)
    ensures r.None? <==> error.None?
    ensures r.Some? ==> StartsWith(r.value, "Error: ")
    ensures r.Some? && error.value != "" ==> r.value[7..] == error.value
    ensures r.Some? && error.value == "" ==> r.value[7..] == ErrorFallback
  {
    match error
    case None => None
    case Some(message) => Some("Error: " + (if message != "" then message else ErrorFallback))
  }

  // ---------------------------------------------------------------------
  // The component's state
  // ---------------------------------------------------------------------

  /** The message `handleSubmit` sends: a user message with one text part
      holding the input as typed. */
  function UserMessage(input: string): UIMessage {
    UIMessage("user", [Part("text", Some(input))])
  }

  /** The sent message displays exactly what was typed. */
  lemma UserMessageDisplaysInput(input: string)
    ensures DisplayRole(UserMessage(input).role) == User
    ensures DisplayedText(UserMessage(input).parts) == input
  {
    TextPartShown([], input, []);
  }

  /** Once a submit's message is among the hook's messages, the thread
      shows it last, on the user's side, with exactly the typed input; the
      bubbles before it are those of the earlier messages, unchanged. */
  lemma RenderAfterSend(messages: seq<UIMessage>, input: string, status: string)
    ensures var v := Render(messages + [UserMessage(input)], status);
      && v.Thread? && |v.bubbles| == |messages| + 1
      && v.bubbles[|messages|] == Bubble(User, input)
      && (|messages| > 0 ==> v.bubbles[..|messages|] == Render(messages, status).bubbles)
      && (v.typing <==> IsLoading(status))
  {
    UserMessageDisplaysInput(input);
    var all := messages + [UserMessage(input)];
    assert all[|messages|] == UserMessage(input);
    if |messages| > 0 {
      var v := Render(all, status);
      forall i | 0 <= i < |messages|
        ensures v.bubbles[i] == Render(messages, status).bubbles[i]
      {
        assert all[i] == messages[i];
      }
    }
  }

  /** The chat component: the `input` state and the log of messages handed
      to the hook's `sendMessage`. */
  class Chat {
    var input: string
    var sent: seq<UIMessage>

    /** Every sent message is a user message whose displayed text is the
        non-blank input it was sent with. */
    predicate Valid()
      reads this
    {
      forall i :: 0 <= i < |sent| ==>
        sent[i].role == "user" && !IsBlank(DisplayedText(sent[i].parts))
    }

    /** `useState("")`, before anything was sent. */
    constructor()
      ensures input == "" && sent == []
      ensures Valid()
    {
      input := "";
      sent := [];
    }

    /** `handleInputChange`: the field's new value replaces the input. */
    method HandleInputChange(value: string)
      requires Valid()
      modifies this
      ensures input == value && sent == old(sent)
      ensures Valid()
    {
      input := value;
    }

    /** `handleSubmit`: unless sending is disabled, send one user message
        carrying the untrimmed input, then clear the input; otherwise change
        nothing. */
    method HandleSubmit(status: string)
      requires Valid()
      modifies this
      ensures SendDisabled(status, old(input)) ==> input == old(input) && sent == old(sent)
      ensures !SendDisabled(status, old(input)) ==>
        sent == old(sent) + [UserMessage(old(input))] && input == ""
      ensures Valid()
    {
      if IsBlank(input) || IsLoading(status) {
        return;
      }
      UserMessageDisplaysInput(input);
      sent := sent + [UserMessage(input)];
      input := "";
    }
  }
}
