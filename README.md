# Personal-site chat assistant, modelled in Dafny

The site has a small chat assistant that answers questions about its owner.
This project models the three parts of it that carry logic:

- **The chat endpoint** (`POST /api/chat`). It runs three request guards in a fixed order:
  - `messages` must be an array;
  - there may be at most 10 messages;
  - each message's extracted text may be at most 1000 characters.

  A message's extracted text is its non-empty `content`. Failing that, it is the texts of its `parts` joined. The handler then builds the system prompt and calls the model. Anything thrown is caught and classified as 401 (authentication, with a fixed remediation text) or 500 (the raw message). Modules `ChatErrors` (errors.dfy) and `ChatRoute` (route.dfy).
- **The system-prompt builder** (`buildSystemPrompt`). It pushes lines into a list, section by section and item by item, and joins the list with `"\n"`. Module `SystemPrompt` (system_prompt.dfy) has two parts:
  - a functional specification of the line list, `PromptLines`, with lemmas placing every line in it;
  - the builder itself, written as methods that push in loops and are proved equal to that specification.

  The site content (profile, writing, life) is a parameter. Its record shapes are in `Content` (content.dfy).
- **The chat widget** (`Chat` component). Module `ChatWidget` (chat.dfy) covers:
  - the loading predicate;
  - which parts of a message are displayed;
  - the disabled predicates;
  - the character counter's thresholds;
  - the error banner;
  - a `Chat` class holding the `input` state and the log of messages handed to `sendMessage`.

  The chat hook's `status`, `messages` and `error` are inputs. Module `Conversation` (conversation.dfy) relates the widget to the endpoint: what the server measures of a message the widget sent, and which histories it accepts.

Shared modules:
- `Text` (text.dfy): JavaScript's `Array.join`, `String.includes` and `String.trim`, over `seq<char>`.
- `Messages` (messages.dfy): the message shapes.

Strings are sequences of characters. A length is the number of elements. JavaScript's `.length` counts UTF-16 code units, and the model assumes one unit per character.

Two behaviours of the code are easy to miss:
- The endpoint's length guard concatenates the `text` of every part, whatever its type, not only text-typed parts (app/api/chat/route.ts:33-34). The widget, by contrast, shows only text parts. `Conversation.DisplayedWithinMeasured` relates the two.
- The catch block handles more than failures of the model call. It also catches a body whose `messages` cannot be read (`Request.Unparsable`). That is a body that is not JSON, or the JSON `null`, whose destructuring at app/api/chat/route.ts:18 throws a TypeError and so gets 500, not 400. It also catches the TypeError raised when an element of `messages` is `null` or `undefined` (`ChatRoute.CheckLengths` gives `Threw`). All of these are classified like any other error.

## Model

| member | source | states |
|---|---|---|
| ChatErrors.Classify | app/api/chat/route.ts:60-76 | the response is 401 or 500; a 401 always carries the fixed remediation text, and a 500 carries the error message itself |
| ChatErrors.ErrorMessage | app/api/chat/route.ts:57 | an `Error`'s message, or "Internal server error" for any other thrown value; NonErrorIsInternal states how the latter is answered |
| ChatErrors.IsAuthMessage | app/api/chat/route.ts:60-65 | the four case-sensitive `includes` tests; ClassifyIff states them as occurrences of the markers |
| ChatErrors.ClassifyIff | app/api/chat/route.ts:60-72 | a message is answered 401 exactly when "401", "Unauthorized", "authentication" or "API key" occurs in it at some position (case-sensitive); otherwise it is answered 500 with the message as body |
| ChatErrors.NotAuthWithoutMarkerChars | app/api/chat/route.ts:60-65 | a message with none of the characters '4', 'U', 'h', 'A' is answered 500 with itself as body |
| ChatErrors.NullAccessIsInternal | app/api/chat/route.ts:55-76 | the TypeError for reading `content` off `null` or `undefined` contains no marker, so it is answered 500 with itself as body |
| ChatErrors.NonErrorIsInternal | app/api/chat/route.ts:57 | a thrown value that is not an `Error` is answered 500 "Internal server error" (the fallback text contains no marker) |
| ChatRoute.ExtractedText | app/api/chat/route.ts:33-34 | the text a message is measured by; its length and composition are stated by ExtractedLength, ContentTakesPrecedence, ExtractedTextAppend and ExtractedTextIgnoresKind |
| ChatRoute.CheckLengths | app/api/chat/route.ts:32-38 | the per-message loop; its three outcomes are characterised by CheckLengthsSpec |
| ChatRoute.ExtractedLength | app/api/chat/route.ts:33-34 | the measured length is the content's length when content is non-empty, otherwise the summed length of all part texts, otherwise 0 |
| ChatRoute.ContentTakesPrecedence | app/api/chat/route.ts:33-34 | non-empty `content` is the extracted text whatever the `parts` are |
| ChatRoute.ExtractedTextAppend | app/api/chat/route.ts:34 | without content, the extracted text of parts `a + b` is that of `a` followed by that of `b` |
| ChatRoute.ExtractedTextIgnoresKind | app/api/chat/route.ts:34 | without content, the part types play no role: parts with the same texts measure the same |
| ChatRoute.CheckLengthsSpec | app/api/chat/route.ts:32-38 | the per-message loop runs to the end exactly when every element is an object within 1000 characters; it answers "too long" exactly when the first element it stops at is an object; it throws exactly when that element is `null`/`undefined`, with that element's TypeError |
| ChatRoute.RejectsMissingArray | app/api/chat/route.ts:20-24 | a missing, falsy or non-array `messages` gives 400 "Invalid request: messages array required" regardless of anything else |
| ChatRoute.RejectsTooMany | app/api/chat/route.ts:27-29 | more than 10 messages give 400 "Too many messages in request", before any message is measured |
| ChatRoute.RejectsTooLong | app/api/chat/route.ts:32-38 | within the count, a message over 1000 characters reached by the loop gives 400 "Message content too long" |
| ChatRoute.AcceptedIff | app/api/chat/route.ts:18-54 | a request is streamed (200) exactly when it is an array of at most 10 messages each within 1000 characters and the model call does not throw; the stream carries the system prompt and the messages as sent |
| ChatRoute.GuardsRunBeforeProvider | app/api/chat/route.ts:20-47 | a request stopped by a guard gets the same non-200 response whatever the provider would do: the guards run before the prompt and the model call |
| ChatRoute.Post | app/api/chat/route.ts:16-78 | every response is 200, 400, 401 or 500, and a 401 always carries the remediation text; AcceptedIff states when it answers 200, the Rejects lemmas when it answers 400, and ThrownIsClassified when the catch block answers |
| ChatRoute.ThrownIsClassified | app/api/chat/route.ts:18-76 | whatever is thrown inside the `try` is answered by the catch block's classifier: a body whose `messages` cannot be read, a model call that throws after every guard passed, and a `null`/`undefined` element the length loop reaches first |
| ChatRoute.NullElementIsInternal | app/api/chat/route.ts:32-38 | a `null`/`undefined` element the length loop reaches first is answered 500 with its TypeError, whatever the provider would do |
| SystemPrompt.PromptLines | lib/system-prompt.ts:10-105 | the specified list of pushed lines; the placement lemmas below and PromptLinesConcat state its content and order |
| SystemPrompt.Prompt | lib/system-prompt.ts:107 | the pushed lines joined by `"\n"`; PromptStartsWithIntroduction and PromptEndsWithLinks state its first and last lines |
| SystemPrompt.FlatMapAt | lib/system-prompt.ts:44-52 | the lines of a list of items split around item `k`: the lines of the items before it, then its own lines, then the lines of the items after it |
| SystemPrompt.SectionLineAt | lib/system-prompt.ts:10-105 | line `i` of section `j` sits at `SectionStart(j) + i` of the pushed list |
| SystemPrompt.PromptStartsWithIntroduction | lib/system-prompt.ts:10-13 | the first pushed line is "You are a helpful assistant that answers questions about Harel Coman." and the prompt starts with it |
| SystemPrompt.HeadingsInOrder | lib/system-prompt.ts:22-102 | the seven headings "## About Harel" … "## Links" open their sections and appear at strictly increasing positions |
| SystemPrompt.AboutSectionHead | lib/system-prompt.ts:23-30 | the About section holds `Name: <name>` right after its heading and then "Bio:" six lines in |
| SystemPrompt.AboutSectionBio | lib/system-prompt.ts:30-34 | each bio paragraph gets exactly one `- <paragraph>` line, in order, right after "Bio:", followed by an empty line |
| SystemPrompt.AboutSectionHighlights | lib/system-prompt.ts:36-40 | "Key Focus Areas:" is followed by exactly one `- <highlight>` line per highlight, in order, then an empty line |
| SystemPrompt.ExperienceItemHeaderAt | lib/system-prompt.ts:44-47 | experience item `k` starts with `\n<title> at <company>` and `<start> - <end>`, and the next item starts right after its bullets (no bullets: two lines only) |
| SystemPrompt.ExperienceItemBulletsAt | lib/system-prompt.ts:47-51 | the item's bullets follow its two header lines, one `- <bullet>` line each, in order |
| SystemPrompt.SkillGroupLabelAt | lib/system-prompt.ts:57-58 | skill group `k` starts with `\n<label>:`, and the next group starts right after its items |
| SystemPrompt.SkillGroupItemsAt | lib/system-prompt.ts:59-61 | the group's items follow its label, one `- <item>` line each, in order |
| SystemPrompt.EducationEntries | lib/system-prompt.ts:66-70 | after "## Education" come one `<degree> from <school>` line per entry, in order, then an empty line |
| SystemPrompt.ArticleAt | lib/system-prompt.ts:79-85 | featured article `k` emits its title line and its URL line always, and its note line between them exactly when the note is present and non-empty |
| SystemPrompt.Hobbies | lib/system-prompt.ts:92-98 | "Hobbies:" is followed by one `- <title>: <description>` line per hobby, then an empty line and `Family: <copy>` |
| SystemPrompt.PromptEndsWithLinks | lib/system-prompt.ts:102-107 | the pushed list ends with "## Links" and one `- <label>: <href>` line per link, in order; the prompt ends with the last of them |
| SystemPrompt.PushEach | lib/system-prompt.ts:31-33 | a `forEach` push loop appends exactly one templated line per item, in order |
| SystemPrompt.PushAbout | lib/system-prompt.ts:22-40 | the About pushes append exactly the About section |
| SystemPrompt.PushExperienceItem | lib/system-prompt.ts:45-51 | one experience item's pushes, with the `bullets.length > 0` branch, append exactly its two header lines and its bullets |
| SystemPrompt.PushExperience | lib/system-prompt.ts:42-53 | the experience loop appends exactly the Experience section |
| SystemPrompt.PushSkillGroup | lib/system-prompt.ts:58-61 | one skill group's pushes append exactly its label line and items |
| SystemPrompt.PushSkills | lib/system-prompt.ts:55-63 | the skills loop appends exactly the Skills section |
| SystemPrompt.PushEducation | lib/system-prompt.ts:65-70 | the education loop appends exactly the Education section |
| SystemPrompt.PushArticle | lib/system-prompt.ts:80-84 | one article's pushes append its title, its note only under `if (article.note)`, and its URL |
| SystemPrompt.PushWriting | lib/system-prompt.ts:72-86 | the writing pushes append exactly the Writing section |
| SystemPrompt.PushInterests | lib/system-prompt.ts:88-99 | the interests pushes append exactly the Personal Interests section |
| SystemPrompt.PushLinks | lib/system-prompt.ts:101-105 | the links loop appends exactly the Links section |
| SystemPrompt.PromptLinesConcat | lib/system-prompt.ts:10-105 | the pushed list is the introduction followed by the seven sections in source order |
| SystemPrompt.BuildSystemPrompt | lib/system-prompt.ts:9-108 | the builder returns the pushed lines joined by `"\n"`, which is the specified `PromptLines`, so every placement lemma above holds of its result |
| ChatWidget.IsLoading | app/components/Chat.tsx:29 | holds exactly for the statuses "streaming" and "submitted"; SendDisabledIff and RenderAfterSend use it |
| ChatWidget.IsTextPart | app/components/Chat.tsx:10-12 | a part of type "text" with a string `text`; DisplayedSingle, NonTextPartIgnored and TextPartsCount state its effect on what is shown |
| ChatWidget.DisplayedText | app/components/Chat.tsx:68-71 | what a bubble shows; DisplayedTextAppend, DisplayedSingle, NonTextPartIgnored and TextPartShown state its content |
| ChatWidget.TextPartsAppend | app/components/Chat.tsx:68-70 | filtering the text parts distributes over concatenation of part lists |
| ChatWidget.TextPartsCount | app/components/Chat.tsx:68-70 | the filtered list has exactly one entry per part of type "text" with a string `text` |
| ChatWidget.TextPartsMembers | app/components/Chat.tsx:68-70 | a string is kept exactly when some text part carries it |
| ChatWidget.DisplayedTextAppend | app/components/Chat.tsx:68-71 | the displayed text of parts `a + b` is that of `a` followed by that of `b` |
| ChatWidget.DisplayedSingle | app/components/Chat.tsx:10-12 | a single part shows its text when it is a text part and nothing otherwise |
| ChatWidget.NonTextPartIgnored | app/components/Chat.tsx:68-71 | inserting a part that is not a text part anywhere leaves the displayed text unchanged |
| ChatWidget.TextPartShown | app/components/Chat.tsx:68-71 | a text part contributes exactly its text, in its position |
| ChatWidget.DisplayRole | app/components/Chat.tsx:67 | a message is drawn as the user's exactly when its role is "user"; every other role is drawn as the assistant |
| ChatWidget.Render | app/components/Chat.tsx:53-100 | the messages area: the empty-state prompt, or one bubble per message with the typing indicator while loading; RenderAfterSend states what a sent message adds |
| ChatWidget.RenderAfterSend | app/components/Chat.tsx:53-100 | once a submitted message is among the hook's messages, the thread shows it last, on the user's side, with exactly the typed input, after the unchanged bubbles of the earlier messages, and the typing indicator shows exactly while loading |
| ChatWidget.SendDisabled | app/components/Chat.tsx:134 | the send button's `disabled`, also the submit guard of line 37; SendDisabledIff and Chat.HandleSubmit state it |
| ChatWidget.InputDisabled | app/components/Chat.tsx:126 | the input field's `disabled`: exactly while loading; SendDisabledIff relates it to the button |
| ChatWidget.SendDisabledIff | app/components/Chat.tsx:126-134 | the send button is disabled (and submitting does nothing) exactly while the status is "streaming" or "submitted" or the input is all whitespace; whenever the field is disabled so is the button |
| ChatWidget.CounterStyle | app/components/Chat.tsx:141-150 | the counter is hidden at lengths ≤ 70, grey for 71-79, orange for 80-89 and red from 90; the four cases are exclusive and exhaustive |
| ChatWidget.CounterMonotone | app/components/Chat.tsx:141-150 | a longer input never gets a less severe counter |
| ChatWidget.ErrorBanner | app/components/Chat.tsx:107-115 | a banner shows exactly when there is an error; it reads "Error: " and the message, or the fallback "Something went wrong. Please try again." for an empty message |
| ChatWidget.UserMessageDisplaysInput | app/components/Chat.tsx:38-41 | the message a submit sends is drawn as the user's and shows exactly the input as typed |
| ChatWidget.Chat.constructor | app/components/Chat.tsx:21 | the input starts empty and nothing has been sent |
| ChatWidget.Chat.HandleInputChange | app/components/Chat.tsx:45-47 | the field's value replaces the input; nothing is sent |
| ChatWidget.Chat.HandleSubmit | app/components/Chat.tsx:35-43 | with a blank input or while loading nothing is sent and the input is kept; otherwise exactly one user message with one text part holding the untrimmed input is sent and the input is cleared; every sent message stays a non-blank user message |
| Conversation.ShownWithinMeasured | app/components/Chat.tsx:68-71 | the texts the widget shows of a part list never sum to more than the texts the endpoint measures |
| Conversation.DisplayedWithinMeasured | app/api/chat/route.ts:33-34 | a message's displayed text is never longer than the text the endpoint measures it by |
| Conversation.SentInputMeasured | app/components/Chat.tsx:38-41 | the endpoint measures a message the widget sent by exactly its input, which is also what the bubble shows |
| Conversation.TypedInputWithinLimit | app/components/Chat.tsx:127 | an input of at most 100 characters, as the field allows, passes the 1000-character guard |
| Conversation.FirstMessageAccepted | app/api/chat/route.ts:27-54 | the first message of a fresh chat is streamed when the model call succeeds |
| Conversation.LongHistoryRejected | app/api/chat/route.ts:27-29 | a history of more than ten messages (the submit after five exchanges) is answered 400 "Too many messages in request" |
| Conversation.LongReplyBlocksHistory | app/api/chat/route.ts:32-38 | once a reply measuring over 1000 characters is in a history of at most ten messages, with every message before it within the limit, the request is answered 400 "Message content too long" |

## Left out

- Parsing the body with `req.json()`, `convertToCoreMessages`, `streamText` and the stream response (app/api/chat/route.ts:18, 43-54) are foreign SDK calls and network I/O. A parse or provider failure enters as a `Thrown` value; a success enters as `Streams`, which the model answers with a 200 carrying the prompt and the messages. A model-call failure is assumed to be thrown inside the `try`; an error the SDK reports inside the stream after the 200 has been sent is not modelled.
- `console.error` logging (app/api/chat/route.ts:56) is I/O.
- A `content` or `text` field that is truthy but not a string, and a `parts` field that is not an array, are not modelled: message fields are strings or absent.
- A `null` or `undefined` element of a message's `parts` is not modelled. In the code, reading its `text` throws a TypeError (app/api/chat/route.ts:34), which the catch block answers with 500 like any other error. Every part here is an object.
- ChatErrors.NullAccessMessage: the TypeError text for a `null` element is the V8 engine's wording; another JavaScript engine words it differently.
- The `useChat` hook and its transport are library internals (app/components/Chat.tsx:22-26). So are the hook's status transitions and the conversion of streamed replies into `messages`. `status`, `messages` and `error` are inputs.
- Conversation.ChatRequest assumes the transport posts the whole history, as the hook's default transport does.
- The input's `maxLength` (app/components/Chat.tsx:127) is enforced by the browser, so Chat.HandleInputChange accepts any value.
- The `scrollIntoView` effect, the JSX markup, the class strings and the counter's label text (`<n> / 100 characters`) are presentation.
- The site's other components and pages are left out: the chat widget shell, the Markdown renderer, the layouts, pages and sitemap, and the concrete content values.
- SystemPrompt's per-item helper methods (PushExperienceItem, PushSkillGroup, PushArticle) are the source's `forEach` callbacks given names. They keep each proof small, and the order of pushes is unchanged.
- String lengths count characters, not UTF-16 code units.
