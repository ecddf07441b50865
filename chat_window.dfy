/**
 * The conversation controller of the chat window: the message log, the text
 * being typed, the images staged for the next message and the "typing" flag,
 * with the greeting reset on a profile change, image staging, and the send
 * that streams the answer into the last message.
 */
module ChatWindow {
  import opened Types
  import opened JsText
  import opened GeminiService

  /** The MODEL message appended when a send fails. */
  const ErrorText: string := "오류가 발생했습니다. 다시 시도해주세요."

  /** What the greeting names when the joined university list is empty. */
  const UniversityFallback: string := "대학"

  /** The fixed pieces of the greeting template, around the four profile fields. */
  const GreetingOpen: string := "반갑습니다, "
  const GreetingAfterName: string := " 학생. 수리논술 전문가입니다. \n현재 "
  const GreetingAfterGrade: string := "이며 수학 "
  const GreetingAfterLevel: string := " 등급이라고 하셨군요. \n목표하시는 ["
  const GreetingClose: string :=
    "] 수리논술 준비에 대해 궁금한 점이나, 직접 푼 논술 답안 분석이 필요하시면 말씀해 주세요. 사진은 여러 장 업로드 가능합니다."

  /** `targetUniversities.join(', ') || '대학'`: never empty, and the joined list whenever that is not empty. */
  function UniversitiesLabel(unis: seq<string>): (r: string)
    ensures r != []
    ensures Join(unis, ", ") == [] ==> r == UniversityFallback
    ensures Join(unis, ", ") != [] ==> r == Join(unis, ", ")
  {
    var joined := Join(unis, ", ");
    if joined == "" then UniversityFallback else joined
  }

  /** The join is empty, so the fallback is used, exactly for no university or a single empty name. */
  lemma UniversitiesFallbackWhen(unis: seq<string>)
    ensures Join(unis, ", ") == "" <==> unis == [] || unis == [""]
    ensures unis == [] ==> UniversitiesLabel(unis) == UniversityFallback
    ensures (forall k :: 0 <= k < |unis| ==> unis[k] != "") ==>
      (unis != [] <==> UniversitiesLabel(unis) == Join(unis, ", "))
  {
    if |unis| >= 2 {
      assert |Join(unis, ", ")| >= 2;
    }
  }

  /** The greeting addressed to a profile: it opens by addressing the student by name and ends with the invitation. */
  function Greeting(p: StudentProfile): (r: string)
    ensures GreetingOpen + p.name <= r
    ensures |r| >= |GreetingClose| && r[|r| - |GreetingClose|..] == GreetingClose
  {
    GreetingOpen + p.name + GreetingAfterName + p.grade + GreetingAfterGrade + p.mathLevel
      + GreetingAfterLevel + UniversitiesLabel(p.targetUniversities) + GreetingClose
  }

  /** Each of four strings spliced between fixed pieces occurs in the result. */
  lemma MentionsEachField(a: string, x1: string, b: string, x2: string, c: string, x3: string,
                          d: string, x4: string, e: string)
    ensures var s := a + x1 + b + x2 + c + x3 + d + x4 + e;
      Occurs(x1, s) && Occurs(x2, s) && Occurs(x3, s) && Occurs(x4, s)
  {
    var s := a + x1 + b + x2 + c + x3 + d + x4 + e;
    OccursAt(x1, x1, 0);
    OccursAt(x2, x2, 0);
    OccursAt(x3, x3, 0);
    OccursAt(x4, x4, 0);
    assert s == a + x1 + (b + x2 + c + x3 + d + x4 + e);
    OccursInConcat(x1, a, x1, b + x2 + c + x3 + d + x4 + e);
    assert s == (a + x1 + b) + x2 + (c + x3 + d + x4 + e);
    OccursInConcat(x2, a + x1 + b, x2, c + x3 + d + x4 + e);
    assert s == (a + x1 + b + x2 + c) + x3 + (d + x4 + e);
    OccursInConcat(x3, a + x1 + b + x2 + c, x3, d + x4 + e);
    assert s == (a + x1 + b + x2 + c + x3 + d) + x4 + e;
    OccursInConcat(x4, a + x1 + b + x2 + c + x3 + d, x4, e);
  }

  /** Whatever occurs in the university text of the greeting occurs in the greeting. */
  lemma OccursInGreeting(t: string, p: StudentProfile)
    requires Occurs(t, UniversitiesLabel(p.targetUniversities))
    ensures Occurs(t, Greeting(p))
  {
    var pre := GreetingOpen + p.name + GreetingAfterName + p.grade + GreetingAfterGrade + p.mathLevel + GreetingAfterLevel;
    OccursInConcat(t, pre, UniversitiesLabel(p.targetUniversities), GreetingClose);
  }

  /** The greeting names the student, the grade, the maths tier and every target university. */
  lemma GreetingMentionsProfile(p: StudentProfile)
    ensures Occurs(p.name, Greeting(p))
    ensures Occurs(p.grade, Greeting(p))
    ensures Occurs(p.mathLevel, Greeting(p))
    ensures Occurs(UniversitiesLabel(p.targetUniversities), Greeting(p))
    ensures forall k :: 0 <= k < |p.targetUniversities| ==> Occurs(p.targetUniversities[k], Greeting(p))
  {
    MentionsEachField(GreetingOpen, p.name, GreetingAfterName, p.grade, GreetingAfterGrade, p.mathLevel,
                      GreetingAfterLevel, UniversitiesLabel(p.targetUniversities), GreetingClose);
    forall k | 0 <= k < |p.targetUniversities| ensures Occurs(p.targetUniversities[k], Greeting(p)) {
      var u := p.targetUniversities[k];
      var joined := Join(p.targetUniversities, ", ");
      JoinMentionsEach(p.targetUniversities, ", ", k);
      if joined == "" {
        var w := OccursWitness(u, joined);
        OccursAt(u, Greeting(p), 0);
      } else {
        OccursInGreeting(u, p);
      }
    }
  }

  /** The single message the log is reset to. */
  function GreetingMessage(p: StudentProfile): ChatMessage {
    ChatMessage(Model, Greeting(p), None)
  }

  /** `xs.filter((_, i) => i !== index)`: one element shorter for an index in range, and nothing new appears. */
  function RemoveAt(xs: seq<string>, index: int): (r: seq<string>)
    ensures |r| == if 0 <= index < |xs| then |xs| - 1 else |xs|
    ensures forall y :: y in r ==> y in xs
  {
    if xs == [] then [] else (if index == 0 then [] else [xs[0]]) + RemoveAt(xs[1..], index - 1)
  }

  /** Removing by position drops exactly that element, keeping the rest in order; an index out of range changes nothing. */
  lemma {:induction false} RemoveAtSpec(xs: seq<string>, index: int)
    ensures 0 <= index < |xs| ==> RemoveAt(xs, index) == xs[..index] + xs[index + 1..]
    ensures !(0 <= index < |xs|) ==> RemoveAt(xs, index) == xs
    decreases |xs|
  {
    if xs != [] {
      RemoveAtSpec(xs[1..], index - 1);
      if index != 0 {
        assert RemoveAt(xs, index) == [xs[0]] + RemoveAt(xs[1..], index - 1);
        if 0 < index < |xs| {
          assert xs[..index] == [xs[0]] + xs[1..][..index - 1];
          assert xs[index + 1..] == xs[1..][index..];
        }
      }
    }
  }

  /** Removing the image just staged gives back the staged list as it was. */
  lemma UploadThenRemoveRestores(xs: seq<string>, dataUrl: string)
    ensures RemoveAt(xs + [dataUrl], |xs|) == xs
  {
    RemoveAtSpec(xs + [dataUrl], |xs|);
    assert (xs + [dataUrl])[..|xs|] == xs;
  }

  /**
   * `dataUrl.split(',')[1]`: `undefined` exactly when there is no comma;
   * otherwise a comma-free piece of the URL.
   */
  function Payload(dataUrl: string): (r: Base64)
    ensures r.None? <==> ',' !in dataUrl
    ensures r.Some? ==> ',' !in r.value
  {
    var pieces := Split(dataUrl, ',');
    if |pieces| > 1 then Some(pieces[1]) else None
  }

  /**
   * For a data URL `header,body`, the payload is `body` up to any further
   * comma; a string without a comma has no payload.
   */
  lemma PayloadOfDataUrl(header: string, body: string, tail: string)
    requires ',' !in header && ',' !in body
    ensures Payload(header + "," + body) == Some(body)
    ensures Payload(header + "," + body + "," + tail) == Some(body)
    ensures Payload(header) == None
  {
    SplitAtFirst(header, body, ',');
    SplitWithout(body, ',');
    SplitWithout(header, ',');
    assert header + "," + body + "," + tail == header + [','] + (body + [','] + tail);
    SplitAtFirst(header, body + [','] + tail, ',');
    SplitAtFirst(body, tail, ',');
  }

  /** `images.map(img => img.split(',')[1])`: one payload per staged image, in order. */
  function Payloads(images: seq<string>): (r: seq<Base64>)
    ensures |r| == |images|
    ensures forall i :: 0 <= i < |images| ==> r[i] == Payload(images[i])
  {
    if images == [] then [] else [Payload(images[0])] + Payloads(images[1..])
  }

  /** The images forwarded for a user message: absent when it has none. */
  function ForwardedImages(images: Option<seq<string>>): (r: Option<seq<Base64>>)
    ensures r.Some? <==> images.Some?
    ensures images.Some? ==> |r.value| == |images.value|
  {
    match images
    case None => None
    case Some(imgs) => Some(Payloads(imgs))
  }

  /** The guard of a send: some text that is not all white space, or at least one staged image. */
  predicate HasContent(input: string, images: seq<string>)
    ensures HasContent(input, images) <==> !AllWhitespace(input) || |images| > 0
  {
    !(IsBlank(input) && |images| == 0)
  }

  /**
   * `disabled={isTyping || (!input.trim() && selectedImages.length === 0)}`,
   * negated: enabled exactly when nothing is streaming and there is some
   * non-white-space text or an image.
   */
  predicate SendEnabled(isTyping: bool, input: string, images: seq<string>)
    ensures SendEnabled(isTyping, input, images) <==> !isTyping && (!AllWhitespace(input) || |images| > 0)
  {
    !isTyping && HasContent(input, images)
  }

  /** The USER message of a send: the untrimmed text, and a copy of the staged images if there are any. */
  function UserMessage(input: string, images: seq<string>): (r: ChatMessage)
    ensures r.role == User && r.text == input
    ensures r.images.Some? <==> |images| > 0
    ensures r.images.Some? ==> r.images.value == images
  {
    ChatMessage(User, input, if |images| > 0 then Some(images) else None)
  }

  /**
   * The streamed fragments joined in order, c1 + ... + cn: a single
   * fragment is the whole answer, and no fragment is longer than the answer.
   */
  function Concat(fragments: seq<string>): (r: string)
    ensures |fragments| == 1 ==> r == fragments[0]
    ensures forall i :: 0 <= i < |fragments| ==> |fragments[i]| <= |r|
  {
    if fragments == [] then "" else Concat(fragments[..|fragments| - 1]) + fragments[|fragments| - 1]
  }

  /** Joining fragments is compatible with splitting the fragment list anywhere. */
  lemma {:induction false} ConcatAppend(a: seq<string>, b: seq<string>)
    ensures Concat(a + b) == Concat(a) + Concat(b)
    decreases |b|
  {
    if b == [] {
      assert a + b == a;
    } else {
      var b' := b[..|b| - 1];
      assert (a + b)[..|a + b| - 1] == a + b';
      ConcatAppend(a, b');
    }
  }

  /** Every running total shown while the answer streams in is a prefix of the final answer. */
  lemma ConcatPrefix(fragments: seq<string>, k: nat)
    requires k <= |fragments|
    ensures Concat(fragments[..k]) <= Concat(fragments)
  {
    ConcatAppend(fragments[..k], fragments[k..]);
    assert fragments[..k] + fragments[k..] == fragments;
  }

  /** Two fragments "Hel" and "lo" make the answer "Hello". */
  lemma ConcatExample()
    ensures Concat(Fragments([Some("Hel"), Some("lo")])) == "Hello"
  {
    var f := Fragments([Some("Hel"), Some("lo")]);
    assert f == ["Hel", "lo"];
    assert f[..1] == ["Hel"];
    assert Concat(["Hel"]) == "Hel";
  }

  /**
   * The log after a send that passed the guard: the old log, the USER
   * message, the MODEL message holding the whole streamed answer (possibly
   * partial), and the apology when the stream failed. The earlier messages
   * are never touched.
   */
  function LogAfterSend(log: seq<ChatMessage>, input: string, images: seq<string>, reply: ProviderStream): (r: seq<ChatMessage>)
    ensures |r| == |log| + (if reply.fails then 3 else 2)
    ensures r[..|log|] == log
    ensures r[|log|].role == User && r[|log|].text == input
    ensures r[|log|].images.Some? <==> |images| > 0
    ensures r[|log| + 1].role == Model
    ensures reply.fails ==> r[|log| + 2] == ChatMessage(Model, ErrorText, None)
  {
    log + [UserMessage(input, images), ChatMessage(Model, Concat(Fragments(reply.chunks)), None)]
      + (if reply.fails then [ChatMessage(Model, ErrorText, None)] else [])
  }

  class Controller {
    /** The conversation log. */
    var messages: seq<ChatMessage>
    /** The text area's content. */
    var input: string
    /** Whether an answer is being produced. */
    var isTyping: bool
    /** The data URLs staged for the next message. */
    var selectedImages: seq<string>
    /** The application's single AI service. */
    const service: Service

    ghost predicate Valid()
      reads this, service
    {
      service.Valid()
    }

    constructor(service: Service)
      requires service.Valid()
      ensures Valid() && this.service == service
      ensures messages == [] && input == "" && !isTyping && selectedImages == []
    {
      this.service := service;
      messages := [];
      input := "";
      isTyping := false;
      selectedImages := [];
    }

    /** Typing in the text area. */
    method SetInput(text: string)
      modifies this
      ensures input == text
      ensures messages == old(messages) && isTyping == old(isTyping) && selectedImages == old(selectedImages)
    {
      input := text;
    }

    /**
     * The greeting effect, run on mount and whenever a profile field changes:
     * the log becomes the one greeting message, made locally without calling
     * the service, and the typing flag ends up cleared.
     */
    method OnProfileChange(p: StudentProfile)
      modifies this
      ensures messages == [GreetingMessage(p)] && !isTyping
      ensures input == old(input) && selectedImages == old(selectedImages)
      ensures service.calls == old(service.calls) && service.chatInstance == old(service.chatInstance)
      ensures service.sessionsCreated == old(service.sessionsCreated)
    {
      isTyping := true;
      var greeting := Greeting(p);
      messages := [ChatMessage(Model, greeting, None)];
      isTyping := false;
    }

    /** A file has been read as a data URL: it is staged after the others. */
    method ImageLoaded(dataUrl: string)
      modifies this
      ensures selectedImages == old(selectedImages) + [dataUrl]
      ensures messages == old(messages) && input == old(input) && isTyping == old(isTyping)
    {
      selectedImages := selectedImages + [dataUrl];
    }

    /** The remove button of a staged image. */
    method RemoveImage(index: int)
      modifies this
      ensures selectedImages == RemoveAt(old(selectedImages), index)
      ensures messages == old(messages) && input == old(input) && isTyping == old(isTyping)
    {
      selectedImages := RemoveAt(selectedImages, index);
    }

    /**
     * The first half of a send that passed the guard: the USER message is
     * appended, the input and the staged images are cleared and the typing
     * flag is set.
     */
    method StageUserMessage() returns (userMsg: ChatMessage)
      modifies this
      ensures userMsg == UserMessage(old(input), old(selectedImages))
      ensures messages == old(messages) + [userMsg]
      ensures input == "" && selectedImages == [] && isTyping
    {
      userMsg := UserMessage(input, selectedImages);
      messages := messages + [userMsg];
      input := "";
      selectedImages := [];
      isTyping := true;
    }

    /**
     * The `for await` loop: after each fragment the running total is written
     * into the last message, which ends up holding all fragments in order;
     * the earlier messages are untouched.
     */
    method AccumulateStream(fragments: seq<string>)
      requires |messages| > 0 && messages[|messages| - 1] == ChatMessage(Model, "", None)
      modifies this`messages
      ensures messages == old(messages)[..|old(messages)| - 1] + [ChatMessage(Model, Concat(fragments), None)]
    {
      ghost var earlier := messages[..|messages| - 1];
      var aiResponseText := "";
      var i := 0;
      while i < |fragments|
        invariant 0 <= i <= |fragments|
        invariant aiResponseText == Concat(fragments[..i])
        invariant messages == earlier + [ChatMessage(Model, aiResponseText, None)]
      {
        assert fragments[..i + 1][..i] == fragments[..i];
        aiResponseText := aiResponseText + fragments[i];
        messages := messages[..|messages| - 1] + [messages[|messages| - 1].(text := aiResponseText)];
        i := i + 1;
      }
      assert fragments[..|fragments|] == fragments;
    }

    /**
     * `handleSend` past its guard: the USER message and an empty MODEL
     * placeholder are appended, the input and staged images are cleared, the
     * service is asked for a stream, the running total of the fragments is
     * written into the placeholder after each fragment, an apology is
     * appended if the stream fails, and the typing flag is cleared in every
     * case.
     */
    method SendStaged(reply: ProviderStream)
      requires Valid()
      modifies this, service
      ensures Valid()
      ensures messages == LogAfterSend(old(messages), old(input), old(selectedImages), reply)
      ensures input == "" && selectedImages == [] && !isTyping
      ensures service.calls == old(service.calls)
        + [RequestCall(service.systemInstruction, old(input),
                       ForwardedImages(UserMessage(old(input), old(selectedImages)).images), true)]
      ensures service.chatInstance == Some(NewSession(service.systemInstruction))
      ensures service.sessionsCreated == old(service.sessionsCreated) + (if old(service.chatInstance).None? then 1 else 0)
    {
      ghost var expected := LogAfterSend(messages, input, selectedImages, reply);
      var userMsg := StageUserMessage();
      var imagesBase64 := ForwardedImages(userMsg.images);
      messages := messages + [ChatMessage(Model, "", None)];
      ghost var staged := messages;
      var fragments, failed := service.SendMessageStream(userMsg.text, imagesBase64, reply);
      AccumulateStream(fragments);
      assert staged[..|staged| - 1] == old(messages) + [userMsg];
      assert messages == old(messages) + [userMsg, ChatMessage(Model, Concat(Fragments(reply.chunks)), None)];
      if failed {
        messages := messages + [ChatMessage(Model, ErrorText, None)];
      }
      assert messages == expected;
      isTyping := false;
    }

    /** `handleSend`: blank text with no staged image does nothing at all; anything else is sent. */
    method HandleSend(reply: ProviderStream)
      requires Valid()
      modifies this, service
      ensures Valid()
      ensures !HasContent(old(input), old(selectedImages)) ==>
        && messages == old(messages) && input == old(input)
        && selectedImages == old(selectedImages) && isTyping == old(isTyping)
        && service.calls == old(service.calls) && service.chatInstance == old(service.chatInstance)
        && service.sessionsCreated == old(service.sessionsCreated)
      ensures HasContent(old(input), old(selectedImages)) ==>
        && messages == LogAfterSend(old(messages), old(input), old(selectedImages), reply)
        && input == "" && selectedImages == [] && !isTyping
        && service.calls == old(service.calls)
             + [RequestCall(service.systemInstruction, old(input),
                            ForwardedImages(UserMessage(old(input), old(selectedImages)).images), true)]
        && service.chatInstance == Some(NewSession(service.systemInstruction))
        && service.sessionsCreated == old(service.sessionsCreated) + (if old(service.chatInstance).None? then 1 else 0)
    {
      if IsBlank(input) && |selectedImages| == 0 {
        return;
      }
      SendStaged(reply);
    }

    /** A click on the send button, which is ignored while the button is disabled. */
    method ClickSend(reply: ProviderStream)
      requires Valid()
      modifies this, service
      ensures Valid()
      ensures !SendEnabled(old(isTyping), old(input), old(selectedImages)) ==>
        && messages == old(messages) && input == old(input)
        && selectedImages == old(selectedImages) && isTyping == old(isTyping)
        && service.calls == old(service.calls) && service.chatInstance == old(service.chatInstance)
        && service.sessionsCreated == old(service.sessionsCreated)
      ensures SendEnabled(old(isTyping), old(input), old(selectedImages)) ==>
        && messages == LogAfterSend(old(messages), old(input), old(selectedImages), reply)
        && input == "" && selectedImages == [] && !isTyping
        && service.calls == old(service.calls)
             + [RequestCall(service.systemInstruction, old(input),
                            ForwardedImages(UserMessage(old(input), old(selectedImages)).images), true)]
        && service.chatInstance == Some(NewSession(service.systemInstruction))
        && service.sessionsCreated == old(service.sessionsCreated) + (if old(service.chatInstance).None? then 1 else 0)
    {
      if SendEnabled(isTyping, input, selectedImages) {
        HandleSend(reply);
      }
    }

    /**
     * Enter without Shift in the text area: `handleSend` is called whatever
     * the typing flag says, so the outcome is exactly that of `HandleSend`.
     */
    method PressEnter(reply: ProviderStream)
      requires Valid()
      modifies this, service
      ensures Valid()
      ensures !HasContent(old(input), old(selectedImages)) ==>
        && messages == old(messages) && input == old(input)
        && selectedImages == old(selectedImages) && isTyping == old(isTyping)
        && service.calls == old(service.calls) && service.chatInstance == old(service.chatInstance)
        && service.sessionsCreated == old(service.sessionsCreated)
      ensures HasContent(old(input), old(selectedImages)) ==>
        && messages == LogAfterSend(old(messages), old(input), old(selectedImages), reply)
        && input == "" && selectedImages == [] && !isTyping
        && service.calls == old(service.calls)
             + [RequestCall(service.systemInstruction, old(input),
                            ForwardedImages(UserMessage(old(input), old(selectedImages)).images), true)]
        && service.chatInstance == Some(NewSession(service.systemInstruction))
        && service.sessionsCreated == old(service.sessionsCreated) + (if old(service.chatInstance).None? then 1 else 0)
    {
      HandleSend(reply);
    }
  }
}
