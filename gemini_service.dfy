/**
 * The AI service: it keeps one lazily created chat session and routes each
 * request either to that session (text only) or to a one-shot multimodal
 * generation call (when images are attached). The provider itself is not
 * modelled: its answer to a request is a parameter, and every call the
 * service makes is recorded in `calls`.
 */
module GeminiService {
  import opened Types

  /** The provider's model identifier, used for the session and for one-shot calls alike. */
  const ModelId: string := "gemini-3-pro-preview"

  /** The media type every attached image is declared with, whatever its real format. */
  const ImageMimeType: string := "image/png"

  /** The sampling temperature of the chat session (a float literal in the source). */
  const ChatTemperature: real := 0.7

  /** An element of `imagesBase64`; `None` stands for `undefined`. */
  type Base64 = Option<string>

  /** One element of the `parts` list of a multimodal request. */
  datatype Part = TextPart(text: string) | InlineData(mimeType: string, data: Base64)

  /** The `config` of a request; one-shot calls carry no temperature. */
  datatype GenerationConfig = GenerationConfig(systemInstruction: string, temperature: Option<real>)

  /** The settings a chat session is created with. */
  datatype ChatSession = ChatSession(model: string, config: GenerationConfig)

  /** One call into the provider, as the service issues it. */
  datatype ProviderCall =
    | GenerateContent(model: string, parts: seq<Part>, config: GenerationConfig)
    | GenerateContentStream(model: string, parts: seq<Part>, config: GenerationConfig)
    | ChatSendMessage(session: ChatSession, message: string)
    | ChatSendMessageStream(session: ChatSession, message: string)

  /** The provider's answer to a one-shot request: a response whose text may be missing, or a failure. */
  datatype ProviderReply = Reply(text: Option<string>) | ReplyFailure

  /**
   * The provider's answer to a streamed request: the chunks (each with a text
   * that may be missing) in delivery order, then either the end of the stream
   * or a failure. A failure before the first chunk has no chunks.
   */
  datatype ProviderStream = ProviderStream(chunks: seq<Option<string>>, fails: bool)

  /** The outcome of `sendMessage`: the response text, or the propagated failure. */
  datatype SendResult = Sent(text: string) | SendFailed

  /** Does a call go through the chat session (and so extend its history)? */
  predicate UsesSession(call: ProviderCall) {
    call.ChatSendMessage? || call.ChatSendMessageStream?
  }

  /**
   * What every call the service issues looks like: session calls go to the
   * fixed session; one-shot calls use the fixed model, the system instruction
   * without a temperature, and put the text part first.
   */
  predicate WellFormed(call: ProviderCall, systemInstruction: string) {
    if UsesSession(call) then call.session == NewSession(systemInstruction)
    else (call.model == ModelId && call.config == OneShotConfig(systemInstruction)
          && |call.parts| >= 1 && call.parts[0].TextPart?)
  }

  /**
   * `imagesBase64 && imagesBase64.length > 0`: the test that selects the
   * one-shot path; it fails both for no list and for an empty list.
   */
  predicate HasImages(images: Option<seq<Base64>>)
    ensures !HasImages(images) <==> images == None || images == Some([])
  {
    images.Some? && |images.value| > 0
  }

  /** `response.text || ''`: a missing or empty text reads as the empty string, never as a failure. */
  function TextOrEmpty(text: Option<string>): (r: string)
    ensures text.Some? ==> r == text.value
    ensures text.None? ==> r == ""
  {
    match text
    case Some(t) => t
    case None => ""
  }

  /** The session `startNewChat` creates: the fixed model, the system instruction and the fixed temperature. */
  function NewSession(systemInstruction: string): (r: ChatSession)
    ensures r.model == ModelId && r.config.systemInstruction == systemInstruction
    ensures r.config.temperature == Some(ChatTemperature)
  {
    ChatSession(ModelId, GenerationConfig(systemInstruction, Some(ChatTemperature)))
  }

  /** The `config` of a one-shot call: the system instruction and no temperature. */
  function OneShotConfig(systemInstruction: string): (r: GenerationConfig)
    ensures r.systemInstruction == systemInstruction && r.temperature.None?
  {
    GenerationConfig(systemInstruction, None)
  }

  /** One inline-data part per image, in the images' order. */
  function ImageParts(images: seq<Base64>): (r: seq<Part>)
    ensures |r| == |images|
    ensures forall i :: 0 <= i < |images| ==> r[i] == InlineData(ImageMimeType, images[i])
  {
    if images == [] then [] else [InlineData(ImageMimeType, images[0])] + ImageParts(images[1..])
  }

  /** The `parts` of a multimodal request: the text first, then one `image/png` part per image, in order. */
  function RequestParts(message: string, images: seq<Base64>): (r: seq<Part>)
    ensures |r| == 1 + |images| && r[0] == TextPart(message)
    ensures forall i :: 0 <= i < |images| ==> r[i + 1] == InlineData(ImageMimeType, images[i])
  {
    [TextPart(message)] + ImageParts(images)
  }

  /**
   * The provider call a request turns into: the session is used exactly when
   * there are no images, the streaming variant exactly when streaming was
   * asked for; a request with images carries the text and one part per image
   * and no temperature; every request is well formed.
   */
  function RequestCall(systemInstruction: string, message: string, images: Option<seq<Base64>>, streamed: bool): (r: ProviderCall)
    ensures UsesSession(r) <==> !HasImages(images)
    ensures r.GenerateContentStream? || r.ChatSendMessageStream? <==> streamed
    ensures HasImages(images) ==> r.parts == RequestParts(message, images.value) && r.config.temperature.None?
    ensures !HasImages(images) ==> r.message == message
    ensures WellFormed(r, systemInstruction)
  {
    if HasImages(images) then
      var parts := RequestParts(message, images.value);
      if streamed then GenerateContentStream(ModelId, parts, OneShotConfig(systemInstruction))
      else GenerateContent(ModelId, parts, OneShotConfig(systemInstruction))
    else if streamed then ChatSendMessageStream(NewSession(systemInstruction), message)
    else ChatSendMessage(NewSession(systemInstruction), message)
  }

  /** The fragments a stream yields: one per provider chunk, in provider order. */
  function Fragments(chunks: seq<Option<string>>): (r: seq<string>)
    ensures |r| == |chunks|
    ensures forall i :: 0 <= i < |chunks| ==> r[i] == TextOrEmpty(chunks[i])
  {
    if chunks == [] then [] else [TextOrEmpty(chunks[0])] + Fragments(chunks[1..])
  }

  /** Building `parts`: the text part, then a push per image. */
  method BuildParts(message: string, images: seq<Base64>) returns (parts: seq<Part>)
    ensures parts == RequestParts(message, images)
  {
    parts := [TextPart(message)];
    var i := 0;
    while i < |images|
      invariant 0 <= i <= |images|
      invariant |parts| == 1 + i && parts[0] == TextPart(message)
      invariant forall j :: 0 <= j < i ==> parts[j + 1] == InlineData(ImageMimeType, images[j])
    {
      parts := parts + [InlineData(ImageMimeType, images[i])];
      i := i + 1;
    }
  }

  /** The generator loop: yields `chunk.text || ''` for each chunk the provider delivers. */
  method ForwardChunks(chunks: seq<Option<string>>) returns (fragments: seq<string>)
    ensures fragments == Fragments(chunks)
  {
    fragments := [];
    var i := 0;
    while i < |chunks|
      invariant 0 <= i <= |chunks|
      invariant |fragments| == i
      invariant forall j :: 0 <= j < i ==> fragments[j] == TextOrEmpty(chunks[j])
    {
      fragments := fragments + [TextOrEmpty(chunks[i])];
      i := i + 1;
    }
  }

  class Service {
    /** The system instruction, a constant of the application that this model leaves opaque. */
    const systemInstruction: string
    /** The chat session; `None` until the first request. */
    var chatInstance: Option<ChatSession>
    /** Every provider call made so far, oldest first. */
    var calls: seq<ProviderCall>
    /** How many times `startNewChat` has created a session; it tells a kept session from a re-created one. */
    var sessionsCreated: nat

    /**
     * A session, once there is one, is always the fixed one; none has been
     * created while there is none; and every recorded call is well formed.
     */
    ghost predicate Valid()
      reads this
    {
      && (chatInstance.None? || chatInstance.value == NewSession(systemInstruction))
      && (chatInstance.None? ==> sessionsCreated == 0)
      && forall i :: 0 <= i < |calls| ==> WellFormed(calls[i], systemInstruction)
    }

    constructor(systemInstruction: string)
      ensures Valid()
      ensures this.systemInstruction == systemInstruction
      ensures chatInstance == None && calls == [] && sessionsCreated == 0
    {
      this.systemInstruction := systemInstruction;
      chatInstance := None;
      calls := [];
      sessionsCreated := 0;
    }

    /** Creates the chat session; creation itself makes no provider call. */
    method StartNewChat()
      requires Valid()
      modifies this
      ensures Valid()
      ensures chatInstance == Some(NewSession(systemInstruction))
      ensures sessionsCreated == old(sessionsCreated) + 1
      ensures calls == old(calls)
    {
      chatInstance := Some(NewSession(systemInstruction));
      sessionsCreated := sessionsCreated + 1;
    }

    /** Creates the session only when there is none yet; an existing session is kept, not re-created. */
    method EnsureSession()
      requires Valid()
      modifies this
      ensures Valid() && chatInstance == Some(NewSession(systemInstruction))
      ensures sessionsCreated == old(sessionsCreated) + (if old(chatInstance).None? then 1 else 0)
      ensures calls == old(calls)
    {
      if chatInstance.None? {
        StartNewChat();
      }
    }

    /**
     * `sendMessage`: with images, one `generateContent` call carrying the text
     * and the images, outside the session; otherwise one message on the
     * session. The session exists afterwards in both cases.
     */
    method SendMessage(message: string, images: Option<seq<Base64>>, reply: ProviderReply) returns (r: SendResult)
      requires Valid()
      modifies this
      ensures Valid() && chatInstance == Some(NewSession(systemInstruction))
      ensures sessionsCreated == old(sessionsCreated) + (if old(chatInstance).None? then 1 else 0)
      ensures calls == old(calls) + [RequestCall(systemInstruction, message, images, false)]
      ensures r == if reply.ReplyFailure? then SendFailed else Sent(TextOrEmpty(reply.text))
    {
      EnsureSession();
      if HasImages(images) {
        var parts := BuildParts(message, images.value);
        calls := calls + [GenerateContent(ModelId, parts, OneShotConfig(systemInstruction))];
      } else {
        calls := calls + [ChatSendMessage(chatInstance.value, message)];
      }
      match reply
      case ReplyFailure => r := SendFailed;
      case Reply(text) => r := Sent(TextOrEmpty(text));
    }

    /**
     * `sendMessageStream`: the same routing with the streaming calls; the
     * fragments are those the generator yields, and `failed` tells whether it
     * ended by throwing.
     */
    method SendMessageStream(message: string, images: Option<seq<Base64>>, reply: ProviderStream)
      returns (fragments: seq<string>, failed: bool)
      requires Valid()
      modifies this
      ensures Valid() && chatInstance == Some(NewSession(systemInstruction))
      ensures sessionsCreated == old(sessionsCreated) + (if old(chatInstance).None? then 1 else 0)
      ensures calls == old(calls) + [RequestCall(systemInstruction, message, images, true)]
      ensures fragments == Fragments(reply.chunks) && failed == reply.fails
    {
      EnsureSession();
      if HasImages(images) {
        var parts := BuildParts(message, images.value);
        calls := calls + [GenerateContentStream(ModelId, parts, OneShotConfig(systemInstruction))];
      } else {
        calls := calls + [ChatSendMessageStream(chatInstance.value, message)];
      }
      fragments := ForwardChunks(reply.chunks);
      failed := reply.fails;
    }
  }
}
