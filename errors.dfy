/** The catch block of the chat endpoint: what a thrown value's message is,
    and how a message is turned into a 401 or a 500 response. */
module ChatErrors {
  import opened Messages
  import opened Text

  const InternalErrorMessage := "Internal server error"
  const AuthErrorBody :=
    "Authentication error: AI Gateway requires VERCEL_OIDC_TOKEN. Options: 1) Use `pnpm dev:vercel` (recommended), 2) Run `vc env pull` before `pnpm dev`, or 3) Use `vc dev` directly."

  /** The case-sensitive markers that make an error an authentication error. */
  const AuthMarkers: seq<string> := ["401", "Unauthorized", "authentication", "API key"]

  /** Something thrown inside the handler: an `Error` with its message, or any
      other value. */
  datatype Thrown = ErrorObject(message: string) | NonError

  /** A response body: plain text, or the model's event stream for the
      given system prompt and messages. */
  datatype Body = Text(text: string) | EventStream(system: string, messages: seq<WireItem>)

  datatype Response = Response(status: int, body: Body)

  /** V8's message for reading `content` off a `null` or `undefined` element,
      "Cannot read properties of null (reading 'content')", written word by
      word. */
  function NullAccessMessage(isNull: bool): string {
    NullAccessHead + (if isNull then "null" else "undefined") + NullAccessTail
  }

  const NullAccessHead := "Cannot" + " read" + " properties" + " of "
  const NullAccessTail := " (reading" + " 'content')"

  /** `error instanceof Error ? error.message : "Internal server error"`. */
  function ErrorMessage(e: Thrown): string {
    if e.ErrorObject? then e.message else InternalErrorMessage
  }

  /** The four `includes` tests of the catch block. */
  predicate IsAuthMessage(message: string) {
    Contains(message, "401") || Contains(message, "Unauthorized")
    || Contains(message, "authentication") || Contains(message, "API key")
  }

  /** The catch block's response for an error message. */
  function Classify(message: string): (r: Response)
    ensures r.status == 401 || r.status == 500
    ensures r.status == 401 ==> r.body == Text(AuthErrorBody)
    ensures r.status == 500 ==> r.body == Text(message)
  {
    if IsAuthMessage(message) then Response(401, Text(AuthErrorBody))
    else Response(500, Text(message))
  }

  /** The response to anything thrown inside the handler. */
  function ErrorResponse(e: Thrown): Response {
    Classify(ErrorMessage(e))
  }

  /** A message is answered 401 exactly when one of the four markers occurs
      in it at some position; otherwise the message itself is sent with 500. */
  lemma ClassifyIff(message: string)
    ensures Classify(message).status == 401 <==>
      exists k, i :: 0 <= k < |AuthMarkers| && OccursAt(message, AuthMarkers[k], i)
    ensures Classify(message).status == 500 <==> Classify(message) == Response(500, Text(message))
  {
    forall k | 0 <= k < |AuthMarkers| {
      ContainsIffOccurs(message, AuthMarkers[k]);
    }
    if IsAuthMessage(message) {
      var k := if Contains(message, "401") then 0
        else if Contains(message, "Unauthorized") then 1
        else if Contains(message, "authentication") then 2
        else 3;
      assert Contains(message, AuthMarkers[k]);
      var i :| OccursAt(message, AuthMarkers[k], i);
    }
    if exists k, i :: 0 <= k < |AuthMarkers| && OccursAt(message, AuthMarkers[k], i) {
      var k, i :| 0 <= k < |AuthMarkers| && OccursAt(message, AuthMarkers[k], i);
      assert Contains(message, AuthMarkers[k]);
    }
  }

  /** A string lacking one of `sub`'s characters does not contain `sub`. */
  lemma MissingCharExcludes(s: string, sub: string, k: nat)
    requires k < |sub| && sub[k] !in s
    ensures !Contains(s, sub)
  {
    ContainsIffOccurs(s, sub);
    forall i | 0 <= i <= |s| - |sub| ensures !OccursAt(s, sub, i) {
      assert s[i..i + |sub|][k] == s[i + k];
    }
  }

  /** None of '4', 'U', 'h' and 'A' occurs: each marker has one of them
      ('4' in "401", 'U' in "Unauthorized", 'h' in "authentication", 'A' in
      "API key"). */
  predicate LacksMarkerChars(s: string) {
    '4' !in s && 'U' !in s && 'h' !in s && 'A' !in s
  }

  /** A message without the marker characters is not an authentication message. */
  lemma NotAuthWithoutMarkerChars(message: string)
    requires LacksMarkerChars(message)
    ensures Classify(message) == Response(500, Text(message))
  {
    MissingCharExcludes(message, "401", 0);
    MissingCharExcludes(message, "Unauthorized", 0);
    MissingCharExcludes(message, "authentication", 3);
    MissingCharExcludes(message, "API key", 0);
  }

  lemma LacksMarkerCharsConcat(a: string, b: string)
    requires LacksMarkerChars(a) && LacksMarkerChars(b)
    ensures LacksMarkerChars(a + b)
  {
  }

  /** The words of the fallback message, one short literal at a time. */
  lemma InternalWordsLackMarkerChars()
    ensures LacksMarkerChars("Internal") && LacksMarkerChars(" server") && LacksMarkerChars(" error")
  {
  }

  /** A thrown non-`Error` is answered 500 "Internal server error". */
  lemma NonErrorIsInternal()
    ensures ErrorResponse(NonError) == Response(500, Text(InternalErrorMessage))
  {
    InternalWordsLackMarkerChars();
    LacksMarkerCharsConcat("Internal", " server");
    LacksMarkerCharsConcat("Internal" + " server", " error");
    assert InternalErrorMessage == "Internal" + " server" + " error";
    NotAuthWithoutMarkerChars(InternalErrorMessage);
  }

  /** The words before the null value, one short literal at a time. */
  lemma NullAccessHeadLacksMarkerChars()
    ensures LacksMarkerChars(NullAccessHead)
  {
    assert LacksMarkerChars("Cannot") && LacksMarkerChars(" read");
    assert LacksMarkerChars(" properties") && LacksMarkerChars(" of ");
    LacksMarkerCharsConcat("Cannot", " read");
    LacksMarkerCharsConcat("Cannot" + " read", " properties");
    LacksMarkerCharsConcat("Cannot" + " read" + " properties", " of ");
  }

  /** The null value and the words after it. */
  lemma NullAccessTailLacksMarkerChars()
    ensures LacksMarkerChars(NullAccessTail)
    ensures LacksMarkerChars("null") && LacksMarkerChars("undefined")
  {
    assert LacksMarkerChars(" (reading") && LacksMarkerChars(" 'content')");
    LacksMarkerCharsConcat(" (reading", " 'content')");
  }

  /** The TypeError of a `null` or `undefined` element names no
      authentication marker, so it is answered 500 with itself as body. */
  lemma NullAccessIsInternal(isNull: bool)
    ensures ErrorResponse(ErrorObject(NullAccessMessage(isNull)))
         == Response(500, Text(NullAccessMessage(isNull)))
  {
    NullAccessHeadLacksMarkerChars();
    NullAccessTailLacksMarkerChars();
    var value := if isNull then "null" else "undefined";
    LacksMarkerCharsConcat(NullAccessHead, value);
    LacksMarkerCharsConcat(NullAccessHead + value, NullAccessTail);
    NotAuthWithoutMarkerChars(NullAccessMessage(isNull));
  }
}
