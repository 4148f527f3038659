/** The chat endpoint's POST handler: the request guards (shape, count,
    per-message length) and the text a message is measured by; caught errors
    are answered as `ChatErrors` says. The JSON parse, the SDK conversion and
    the model call are not modelled: their failures enter as a `Thrown`
    value, their success as `Streams`. */
module ChatRoute {
  import opened Messages
  import opened Content
  import opened Text
  import opened ChatErrors
  import SystemPrompt

  const MaxMessagesPerRequest := 10
  const MaxMessageLength := 1000

  const InvalidRequestBody := "Invalid request: messages array required"
  const TooManyMessagesBody := "Too many messages in request"
  const TooLongBody := "Message content too long"

  // ---------------------------------------------------------------------
  // Requests and responses
  // ---------------------------------------------------------------------

  /** The `messages` field: absent or falsy, truthy but not an array, or an array. */
  datatype MessagesField = Missing | NotArray | Array(items: seq<WireItem>)

  /** The request as line 18 leaves it: reading the `messages` field threw
      (the body is not JSON, or it is JSON `null`, whose destructuring throws
      a TypeError), or it gave the field. */
  datatype Request = Unparsable(error: Thrown) | Json(messages: MessagesField)

  /** What the SDK conversion and the model call do with an accepted request:
      return a stream, or throw inside the `try`. */
  datatype Provider = Streams | Throws(error: Thrown)

  // ---------------------------------------------------------------------
  // The text a message is measured by
  // ---------------------------------------------------------------------

  /** `p.text || ""`. */
  function PartText(p: Part): string {
    if p.text.Some? then p.text.value else ""
  }

  /** Every part's text, whatever the part's type, in order. */
  function PartTexts(parts: seq<Part>): seq<string> {
    seq(|parts|, i requires 0 <= i < |parts| => PartText(parts[i]))
  }

  /** `content` is used when it is a non-empty string. */
  predicate HasContent(m: WireMessage) {
    m.content.Some? && m.content.value != ""
  }

  /** `msg.content || msg.parts?.map(p => p.text || "").join("") || ""`. */
  function ExtractedText(m: WireMessage): string {
    if HasContent(m) then m.content.value
    else if m.parts.Some? then Join(PartTexts(m.parts.value), "")
    else ""
  }

  /** Joining with the empty separator keeps every character. */
  lemma ConcatLength(xs: seq<string>)
    ensures |Join(xs, "")| == TotalLength(xs)
  {
    if |xs| > 0 {
      JoinLength(xs, "");
    }
  }

  /** The measured length is the content's length when there is content, and
      otherwise the summed length of all part texts (missing texts count 0). */
  lemma ExtractedLength(m: WireMessage)
    ensures |ExtractedText(m)| ==
      if HasContent(m) then |m.content.value|
      else if m.parts.Some? then TotalLength(PartTexts(m.parts.value))
      else 0
  {
    if !HasContent(m) && m.parts.Some? {
      ConcatLength(PartTexts(m.parts.value));
    }
  }

  /** Non-empty content wins: the parts are then not looked at. */
  lemma ContentTakesPrecedence(m: WireMessage, parts: Option<seq<Part>>)
    requires HasContent(m)
    ensures ExtractedText(m) == ExtractedText(WireMessage(m.content, parts)) == m.content.value
  {
  }

  /** Without content, the parts' texts are concatenated in order: the text of
      `a + b` is the text of `a` followed by the text of `b`. */
  lemma ExtractedTextAppend(content: Option<string>, a: seq<Part>, b: seq<Part>)
    requires !HasContent(WireMessage(content, Some(a)))
    ensures ExtractedText(WireMessage(content, Some(a + b)))
         == ExtractedText(WireMessage(content, Some(a))) + ExtractedText(WireMessage(content, Some(b)))
  {
    assert PartTexts(a + b) == PartTexts(a) + PartTexts(b);
    ConcatAppend(PartTexts(a), PartTexts(b));
  }

  /** The part type plays no role: parts with the same texts measure the same. */
  lemma ExtractedTextIgnoresKind(content: Option<string>, a: seq<Part>, b: seq<Part>)
    requires |a| == |b|
    requires forall i :: 0 <= i < |a| ==> a[i].text == b[i].text
    ensures ExtractedText(WireMessage(content, Some(a))) == ExtractedText(WireMessage(content, Some(b)))
  {
    assert PartTexts(a) == PartTexts(b);
  }

  // ---------------------------------------------------------------------
  // The per-message length scan
  // ---------------------------------------------------------------------

  /** How the `for (const msg of messages)` loop ends. */
  datatype Scan = AllWithinLimit | TooLong | Threw(error: Thrown)

  /** An element the loop passes over: an object measuring at most the limit. */
  predicate WithinLimit(item: WireItem) {
    item.Object? && |ExtractedText(item.msg)| <= MaxMessageLength
  }

  /** Element `i` is the first one the loop stops at. */
  predicate FirstStop(items: seq<WireItem>, i: int) {
    0 <= i < |items| && !WithinLimit(items[i])
    && forall j :: 0 <= j < i ==> WithinLimit(items[j])
  }

  /** The loop: visit the elements in order and stop at the first `null` or
      `undefined` one (reading its `content` throws) or the first too long one. */
  function CheckLengths(items: seq<WireItem>): Scan
    decreases |items|
  {
    if |items| == 0 then AllWithinLimit
    else match items[0]
      case Nullish(isNull) => Threw(ErrorObject(NullAccessMessage(isNull)))
      case Object(m) =>
        if |ExtractedText(m)| > MaxMessageLength then TooLong else CheckLengths(items[1..])
  }

  /** The loop runs to the end exactly when every element is within the
      limit; it answers "too long" exactly when the first element it stops at
      is an object, and it throws exactly when that element is `null` or
      `undefined`, with that element's TypeError. */
  lemma {:induction false} CheckLengthsSpec(items: seq<WireItem>)
    ensures CheckLengths(items).AllWithinLimit? <==> forall i :: 0 <= i < |items| ==> WithinLimit(items[i])
    ensures CheckLengths(items).TooLong? <==> exists i :: FirstStop(items, i) && items[i].Object?
    ensures CheckLengths(items).Threw? <==>
      exists i :: FirstStop(items, i) && items[i].Nullish?
                  && CheckLengths(items).error == ErrorObject(NullAccessMessage(items[i].isNull))
    decreases |items|
  {
    if |items| > 0 {
      var rest := items[1..];
      CheckLengthsSpec(rest);
      if !WithinLimit(items[0]) {
        assert FirstStop(items, 0);
      } else {
        assert CheckLengths(items) == CheckLengths(rest);
        forall i | 0 <= i < |rest| ensures (WithinLimit(rest[i]) <==> WithinLimit(items[i + 1])) {
          assert rest[i] == items[i + 1];
        }
        if forall i :: 0 <= i < |rest| ==> WithinLimit(rest[i]) {
          forall i | 0 <= i < |items| ensures WithinLimit(items[i]) {
            if i > 0 { assert WithinLimit(rest[i - 1]); }
          }
        }
        if forall i :: 0 <= i < |items| ==> WithinLimit(items[i]) {
          forall i | 0 <= i < |rest| ensures WithinLimit(rest[i]) {
            assert WithinLimit(items[i + 1]);
          }
        }
        if i :| FirstStop(rest, i) {
          assert FirstStop(items, i + 1) && items[i + 1] == rest[i];
        }
        if i :| FirstStop(items, i) {
          assert i > 0;
          assert FirstStop(rest, i - 1) && rest[i - 1] == items[i];
        }
      }
    }
  }

  // ---------------------------------------------------------------------
  // The handler
  // ---------------------------------------------------------------------

  /** `POST`: the guards in order, then the prompt and the model call; any
      throw on the way is classified. Every response is 200, 400, 401 or
      500, and the 401 one always carries the remediation text. */
  function Post(req: Request, p: Profile, w: Writing, l: Life, provider: Provider): (r: Response)
    ensures r.status == 200 || r.status == 400 || r.status == 401 || r.status == 500
    ensures r.status == 401 ==> r.body == Text(AuthErrorBody)
  {
    match req
    case Unparsable(e) => ErrorResponse(e)
    case Json(field) =>
      if !field.Array? then Response(400, Text(InvalidRequestBody))
      else if |field.items| > MaxMessagesPerRequest then Response(400, Text(TooManyMessagesBody))
      else match CheckLengths(field.items)
        case TooLong => Response(400, Text(TooLongBody))
        case Threw(e) => ErrorResponse(e)
        case AllWithinLimit =>
          match provider
          case Throws(e) => ErrorResponse(e)
          case Streams => Response(200, EventStream(SystemPrompt.Prompt(p, w, l), field.items))
  }

  /** The request passes every guard. */
  predicate PassesGuards(req: Request) {
    req.Json? && req.messages.Array?
    && |req.messages.items| <= MaxMessagesPerRequest
    && forall i :: 0 <= i < |req.messages.items| ==> WithinLimit(req.messages.items[i])
  }

  /** A missing, falsy or non-array `messages` is answered 400, whatever else. */
  lemma RejectsMissingArray(field: MessagesField, p: Profile, w: Writing, l: Life, provider: Provider)
    requires !field.Array?
    ensures Post(Json(field), p, w, l, provider) == Response(400, Text(InvalidRequestBody))
  {
  }

  /** More than ten messages are answered 400 before any message is measured. */
  lemma RejectsTooMany(items: seq<WireItem>, p: Profile, w: Writing, l: Life, provider: Provider)
    requires |items| > MaxMessagesPerRequest
    ensures Post(Json(Array(items)), p, w, l, provider) == Response(400, Text(TooManyMessagesBody))
  {
  }

  /** Within the count, a message longer than 1000 characters that the loop
      reaches before any `null` element is answered 400. */
  lemma RejectsTooLong(items: seq<WireItem>, i: nat, p: Profile, w: Writing, l: Life, provider: Provider)
    requires |items| <= MaxMessagesPerRequest
    requires FirstStop(items, i) && items[i].Object?
    ensures Post(Json(Array(items)), p, w, l, provider) == Response(400, Text(TooLongBody))
  {
    CheckLengthsSpec(items);
  }

  /** A request is streamed exactly when it passes every guard and the model
      call does not throw; the stream carries the system prompt and the
      messages as sent. So an accepted request has at most ten messages (ten
      is allowed), each measuring at most 1000 characters (1000 is allowed). */
  lemma AcceptedIff(req: Request, p: Profile, w: Writing, l: Life, provider: Provider)
    ensures Post(req, p, w, l, provider).status == 200 <==> PassesGuards(req) && provider.Streams?
    ensures Post(req, p, w, l, provider).status == 200 ==>
      Post(req, p, w, l, provider).body == EventStream(SystemPrompt.Prompt(p, w, l), req.messages.items)
  {
    if req.Json? && req.messages.Array? {
      CheckLengthsSpec(req.messages.items);
    }
  }

  /** A request stopped by a guard is answered without the model call: its
      response does not depend on what the provider would have done. */
  lemma GuardsRunBeforeProvider(req: Request, p: Profile, w: Writing, l: Life, a: Provider, b: Provider)
    requires !PassesGuards(req)
    ensures Post(req, p, w, l, a) == Post(req, p, w, l, b)
    ensures Post(req, p, w, l, a).status != 200
  {
    if req.Json? && req.messages.Array? && |req.messages.items| <= MaxMessagesPerRequest {
      CheckLengthsSpec(req.messages.items);
    }
  }

  /** Whatever is thrown inside the `try` is answered by the catch block's
      classifier: a body whose `messages` cannot be read, a model call that
      throws once every guard has passed, and a `null` or `undefined`
      element that the length loop reaches first. */
  lemma ThrownIsClassified(e: Thrown, items: seq<WireItem>, i: nat, p: Profile, w: Writing, l: Life, provider: Provider)
    ensures Post(Unparsable(e), p, w, l, provider) == ErrorResponse(e)
    ensures PassesGuards(Json(Array(items))) ==>
      Post(Json(Array(items)), p, w, l, Throws(e)) == ErrorResponse(e)
    ensures |items| <= MaxMessagesPerRequest && FirstStop(items, i) && items[i].Nullish? ==>
      Post(Json(Array(items)), p, w, l, provider)
        == ErrorResponse(ErrorObject(NullAccessMessage(items[i].isNull)))
  {
    AcceptedIff(Json(Array(items)), p, w, l, Throws(e));
    CheckLengthsSpec(items);
  }

  /** A `null` or `undefined` element that the length loop reaches first is
      answered 500 with its TypeError, whatever the provider would do. */
  lemma NullElementIsInternal(items: seq<WireItem>, i: nat, p: Profile, w: Writing, l: Life, provider: Provider)
    requires |items| <= MaxMessagesPerRequest && FirstStop(items, i) && items[i].Nullish?
    ensures Post(Json(Array(items)), p, w, l, provider)
         == Response(500, Text(NullAccessMessage(items[i].isNull)))
  {
    ThrownIsClassified(NonError, items, i, p, w, l, provider);
    NullAccessIsInternal(items[i].isNull);
  }
}
