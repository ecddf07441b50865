# MathLogos conversation core, modelled in Dafny

MathLogos is a single-page tutoring chat: a student fills in a profile in the
sidebar (name, grade, maths tier, target universities), and the chat window
sends questions and photos of written solutions to a generative-AI provider
and shows the streamed answer. This project models the three pieces of that
application that carry logic, and proves what they promise:

- **The chat window's controller** (`chat_window.dfy`, module `ChatWindow`):
  a class `Controller` with the four state fields of the component
  (`messages`, `input`, `isTyping`, `selectedImages`) and the application's
  AI service. It covers the greeting that replaces the log on a profile change,
  staging and removing images, the guard of `handleSend`, the USER message and
  empty MODEL placeholder it appends, the extraction of base64 payloads from
  data URLs, the `for await` loop that writes the running total of the
  fragments into the last message, the apology on failure, and the clearing
  of the typing flag. It also covers the send button's enablement and the
  Enter key, which calls `handleSend` without looking at the typing flag.
- **The sidebar's profile editor** (`sidebar.dfy`, module `Sidebar`): pure
  functions for the university toggle and the three single-field edits, plus
  the values the selectors offer.
- **The AI service** (`gemini_service.dfy`, module `GeminiService`): a class
  `Service` with the lazily created `chatInstance`. It covers the routing of a
  request to the chat session (no images) or to a one-shot multimodal call
  (images), the building of `parts`, and the forwarding of one fragment per
  provider chunk. The provider is represented by its answer, which is passed
  in as a parameter: a reply or a chunk stream, where each text may be missing
  and a stream may end in a failure. Every call the service makes is recorded
  in `calls`, so which path was taken is part of the state.

`types.dfy` holds the records of `types.ts`. `js_text.dfy` holds the
JavaScript built-ins the code depends on: `trim` (with ECMAScript's white-space
set), `join` and `split`, with their round trip.

Where the design description and the code differ, the model follows the code:

- The design says a send issued while an answer is streaming is rejected.
  The code only disables the send button (components/ChatWindow.tsx:181). The
  Enter key calls `handleSend` unconditionally (components/ChatWindow.tsx:169-173),
  so `HandleSend` has no in-flight guard, and `PressEnter` sends whatever
  `isTyping` is.
- The design expects a profile change to reset the AI session. The code never
  does: `chatInstance` is only created when it is null
  (services/geminiService.ts:25-27, 53-55), and the greeting is local text.
- The design calls the target institutions a set. The code keeps an ordered
  list: ticking appends, and unticking filters out every occurrence.
- The design says each fragment is appended to the last message. The code
  overwrites the last message's text with the running total. Both give
  c1 + ... + cn, and the model does what the code does.

## Model

| member | source | states |
|---|---|---|
| `ChatWindow.Controller.constructor` | components/ChatWindow.tsx:15-18 | the log, input and staged images start empty and the typing flag starts false |
| `ChatWindow.Controller.SetInput` | components/ChatWindow.tsx:168 | typing replaces the input and changes nothing else |
| `ChatWindow.Controller.OnProfileChange` | components/ChatWindow.tsx:30-41 | the log becomes exactly one MODEL greeting for the profile; the typing flag ends false; input and staged images are kept; no provider call is made, the session is untouched and none is created |
| `ChatWindow.Greeting` | components/ChatWindow.tsx:33-35 | the greeting opens by addressing the student by name and ends with the invitation to ask questions or upload photos |
| `ChatWindow.UniversitiesLabel` | components/ChatWindow.tsx:35 | the university text is never empty: it is "대학" whenever the list joined with ", " is empty, and that join otherwise |
| `ChatWindow.GreetingMentionsProfile` | components/ChatWindow.tsx:33-35 | the greeting contains the name, the grade, the maths tier, the university text, and each target university |
| `ChatWindow.UniversitiesFallbackWhen` | components/ChatWindow.tsx:35 | the joined list is empty, so "대학" is shown, exactly when there is no university or one empty name; a list of non-empty names is shown joined with ", " iff it is non-empty |
| `ChatWindow.Controller.ImageLoaded` | components/ChatWindow.tsx:48-50 | a loaded data URL is staged after the images already staged; nothing else changes |
| `ChatWindow.Controller.RemoveImage` | components/ChatWindow.tsx:57-59 | the staged list becomes the position filter of the old one; nothing else changes |
| `ChatWindow.RemoveAt` | components/ChatWindow.tsx:58 | removing by position makes the list one shorter for an index in range, leaves its length for any other index, and adds no new element |
| `ChatWindow.RemoveAtSpec` | components/ChatWindow.tsx:58 | removing position i drops exactly the i-th image and keeps the rest in order; an out-of-range position leaves the list unchanged |
| `ChatWindow.UploadThenRemoveRestores` | components/ChatWindow.tsx:49-58 | removing the image just staged restores the previous staged list |
| `ChatWindow.Payload` | components/ChatWindow.tsx:76 | the payload of a data URL is `undefined` exactly when it has no comma, and otherwise contains no comma |
| `ChatWindow.PayloadOfDataUrl` | components/ChatWindow.tsx:76 | the payload of `header,body[,tail]` is `body`, up to any next comma; a string without a comma yields `undefined` |
| `ChatWindow.Payloads` | components/ChatWindow.tsx:76 | one payload per staged image, in the same order |
| `ChatWindow.ForwardedImages` | components/ChatWindow.tsx:67-76 | payloads are forwarded exactly when the user message has images, one per image |
| `ChatWindow.HasContent` | components/ChatWindow.tsx:62 | the send guard passes iff the input has a character that is not JavaScript white space or an image is staged |
| `ChatWindow.SendEnabled` | components/ChatWindow.tsx:181 | the send button is enabled iff nothing is streaming and the input has a non-white-space character or an image is staged |
| `ChatWindow.UserMessage` | components/ChatWindow.tsx:64-68 | the USER message carries the untrimmed input; it has images exactly when some are staged, and then exactly the staged ones |
| `ChatWindow.Controller.StageUserMessage` | components/ChatWindow.tsx:64-73 | the USER message carries the untrimmed input and the staged images (absent when none); it is appended, input and staged images are cleared, and the typing flag is set |
| `ChatWindow.Controller.AccumulateStream` | components/ChatWindow.tsx:77-87 | after the stream, the last message's text is the concatenation of all fragments in order and every earlier message is unchanged |
| `ChatWindow.Concat` | components/ChatWindow.tsx:81 | a single fragment is the whole answer, and no fragment is longer than the assembled answer |
| `ChatWindow.ConcatAppend` | components/ChatWindow.tsx:81 | joining fragments is compatible with concatenating fragment lists |
| `ChatWindow.ConcatPrefix` | components/ChatWindow.tsx:80-86 | every running total written into the last message while streaming is a prefix of the final answer |
| `ChatWindow.ConcatExample` | components/ChatWindow.tsx:80-87 | fragments "Hel" and "lo" assemble to "Hello" |
| `ChatWindow.LogAfterSend` | components/ChatWindow.tsx:70-93 | a send adds USER (with the input, and images iff some were staged) then MODEL, plus the apology on failure; the earlier log is an unchanged prefix |
| `ChatWindow.Controller.SendStaged` | components/ChatWindow.tsx:64-93 | log = old log + USER + MODEL(c1+...+cn) + apology if the stream failed; input and staged images are empty; the typing flag is false; exactly one streamed provider call, routed by whether images were staged; the session exists afterwards and was created only if there was none |
| `ChatWindow.Controller.HandleSend` | components/ChatWindow.tsx:61-94 | blank input with no staged image changes nothing (log, input, images, typing flag, provider calls, session, sessions created); otherwise the same outcome as `SendStaged` |
| `ChatWindow.Controller.ClickSend` | components/ChatWindow.tsx:180-181 | a click on a disabled button changes nothing (log, input, images, typing flag, provider calls, session); an enabled click has exactly the outcome of a send: final log, cleared input and images, flag false, one routed streaming call, the session exists |
| `ChatWindow.Controller.PressEnter` | components/ChatWindow.tsx:169-173 | Enter is `handleSend` whatever the typing flag says: with no content nothing changes; with content the final log, cleared input and images, flag false, one routed streaming call and the session are stated |
| `Sidebar.ToggleUniversity` | components/Sidebar.tsx:12-24 | membership of the toggled university flips; name, grade and maths tier are unchanged |
| `Sidebar.RemoveAll` | components/Sidebar.tsx:16 | the filter leaves no occurrence of the removed value and introduces no new value |
| `Sidebar.ToggleAbsentAppends` | components/Sidebar.tsx:18-22 | an unlisted university is appended at the end after the unchanged earlier entries |
| `Sidebar.TogglePresentRemovesAll` | components/Sidebar.tsx:13-17 | a listed university loses every occurrence; every other university keeps its count and the order is kept |
| `Sidebar.RemoveAllKeepsCounts` | components/Sidebar.tsx:16 | filtering keeps the number of occurrences of every other value |
| `Sidebar.RemoveAllKeepsOrder` | components/Sidebar.tsx:16 | filtering keeps the remaining entries in their original order |
| `Sidebar.DoubleToggleAbsentRestores` | components/Sidebar.tsx:13-23 | toggling an unlisted university twice gives back the same profile |
| `Sidebar.DoubleTogglePresentMovesToEnd` | components/Sidebar.tsx:13-23 | in a duplicate-free list, toggling a listed university twice moves it to the end; the list is restored iff it was last |
| `Sidebar.ToggleKeepsNoDuplicates` | components/Sidebar.tsx:13-22 | a toggle never introduces a duplicate into a duplicate-free list |
| `Sidebar.SetName` | components/Sidebar.tsx:42 | the name edit replaces the name and no other field |
| `Sidebar.SetGrade` | components/Sidebar.tsx:52 | the grade edit replaces the grade and no other field |
| `Sidebar.SetMathLevel` | components/Sidebar.tsx:64 | the tier edit replaces the maths tier and no other field |
| `Sidebar.EditsUndo` | components/Sidebar.tsx:42-64 | each single-field edit is undone by writing the old value back |
| `Sidebar.MathLevelOption` | components/Sidebar.tsx:67 | the n-th tier option is the digit n followed by "등급" |
| `Sidebar.SelectorOptionsDistinct` | components/Sidebar.tsx:55-67 | the grade selector offers three and the tier selector nine pairwise different values; the n-th tier option is the digit n followed by "등급" |
| `Sidebar.InitialProfileOffered` | App.tsx:8-13 | the initial profile's grade and tier are among the values the selectors offer, and its university list has no duplicate |
| `Sidebar.EditsKeepOffered` | components/Sidebar.tsx:42-67 | edits made with the sidebar's own controls keep grade and tier among the offered values |
| `GeminiService.Service.constructor` | services/geminiService.ts:5-12 | a new service has no chat session, has created none and has made no call |
| `GeminiService.NewSession` | services/geminiService.ts:15-21 | the session uses the fixed model, the system instruction and temperature 0.7 |
| `GeminiService.OneShotConfig` | services/geminiService.ts:39 | a one-shot call carries the system instruction and no temperature |
| `GeminiService.Service.StartNewChat` | services/geminiService.ts:14-22 | a new session is created (the creation count goes up by one) with the fixed model, the system instruction and the fixed temperature, without a provider call |
| `GeminiService.Service.EnsureSession` | services/geminiService.ts:53-55 | a session exists afterwards; one is created (the creation count goes up by one) exactly when there was none, so an existing session is kept rather than re-created |
| `GeminiService.Service.SendMessage` | services/geminiService.ts:24-50 | the session exists afterwards and is created only if there was none; exactly one provider call is made, the one `RequestCall` routes to; the result is the reply's text, "" if it has none, or the failure |
| `GeminiService.Service.SendMessageStream` | services/geminiService.ts:52-83 | as `SendMessage` with the streaming calls, including lazy session creation; the yielded fragments are one per provider chunk, in order, and the failure is passed on |
| `GeminiService.HasImages` | services/geminiService.ts:29 | the one-shot path is not taken exactly when there is no image list or an empty one |
| `GeminiService.RequestCall` | services/geminiService.ts:29-49 | the session is used exactly when there are no images and the streaming call exactly when streaming is asked for; an image request carries exactly the request parts and no temperature; a session request carries the message; every call is well formed |
| `GeminiService.RequestParts` | services/geminiService.ts:30-33 | `parts` is the text part followed by one `image/png` part per image, in order: 1 + n parts |
| `GeminiService.ImageParts` | services/geminiService.ts:31-33 | one inline-data part per image, in order, each declared `image/png` |
| `GeminiService.BuildParts` | services/geminiService.ts:58-61 | the pushing loop builds exactly the request parts |
| `GeminiService.TextOrEmpty` | services/geminiService.ts:42 | a reply or chunk without text reads as "" rather than failing |
| `GeminiService.Fragments` | services/geminiService.ts:77-81 | one fragment per provider chunk, in provider order |
| `GeminiService.ForwardChunks` | services/geminiService.ts:69-72 | the generator loop yields exactly those fragments |
| `JsText.Trim` | components/ChatWindow.tsx:62 | `input.trim()` neither starts nor ends with white space, and is empty, so `!input.trim()` holds, iff every character is JavaScript white space |
| `JsText.TrimKeepsMiddle` | components/ChatWindow.tsx:62 | `trim` only cuts: the result is a contiguous piece of the input and all that is cut before and after it is white space |
| `JsText.Split` | components/ChatWindow.tsx:76 | a split has at least one piece, more than one exactly when the separator occurs, and no piece contains the separator |
| `JsText.JoinSplit` | components/ChatWindow.tsx:76 | joining the pieces of a split with the separator gives back the string |
| `JsText.SplitAtFirst` | components/ChatWindow.tsx:76 | the first piece of a split ends at the first separator |
| `JsText.Join` | components/ChatWindow.tsx:35 | joining no element gives "" and joining one element gives that element |
| `JsText.JoinMentionsEach` | components/ChatWindow.tsx:35 | every element of a joined list occurs in the joined string |

## Left out

- Rendering: JSX markup, styling, scrolling to the newest message, Markdown and KaTeX rendering, and the "분석 중입니다..." placeholder shown while the last message is empty.
- File reading: `FileReader` turning a file into a data URL is browser I/O. The model receives the resulting string. When several files are picked, their completion order is not modelled: each completion is one `ImageLoaded`.
- Concurrency: React state batching and async interleavings are not modelled, such as a profile change arriving mid-stream or two sends overlapping through the Enter key. A send runs as one sequential method. `StageUserMessage` sets `isTyping`, and `AccumulateStream` may change only `messages`, so the flag stays set while the stream is read.
- Message objects are shared between successive arrays in the code, which updates the last message in place. The model treats messages as values and replaces the last one, which gives the same log.
- The provider SDK: network calls, the chat session's history kept by the provider, and the credential read from `process.env.API_KEY`. A missing key is not modelled.
- `SYSTEM_INSTRUCTION` and `TARGET_UNIVERSITIES` come from `constants.ts`, which is not part of this model. The system instruction is a constructor parameter of `Service`. The universities the sidebar offers as checkboxes are any strings.
- The temperature 0.7 is a float in the code. It is kept as the real literal 0.7 in the session config and is not computed with.
- `console.error` on failure is logging and is not modelled.
- ChatWindow.Controller.HandleSend: its contract states the final log, input, staged images, flag and provider call. It does not list the intermediate logs the user sees after each fragment; `AccumulateStream`'s loop invariant describes those.
