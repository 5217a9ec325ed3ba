/**
 * The try-on session of App.tsx as values: what each event handler does to the session,
 * and which gateway requests it sends while doing so.
 *
 * Every handler runs to completion before the next one starts; each awaited gateway call
 * is one step whose outcome is a parameter. A `Step` records the session after the
 * handler and, for each request sent, the session as it stood while the request was
 * awaited (what the page shows during the call).
 */
module Workflow {
  import opened Wrappers
  import opened Types
  import opened GeminiService

  /** The nine state variables of the component. */
  datatype Session = Session(
    selectedImage: Option<string>,
    mode: TryOnMode,
    outfitAnalysis: Option<string>,
    matchAdvice: Option<string>,
    generatedImage: Option<string>,
    prompt: string,
    garmentImage: Option<string>,
    loading: bool,
    loadingMessage: string)

  /** The state the component starts in. */
  const Initial := Session(None, Text, None, None, None, "", None, false, "")

  const AnalyzingStyleMessage := "正在分析您的穿搭風格..."
  const ComposingLookMessage := "正在根據描述合成造型..."
  const AnalyzingMatchMessage := "正在分析單品搭配性..."
  const FittingItemMessage := "正在為您試穿這件單品..."

  /** JavaScript truthiness of a `string | null` state variable: present and not empty. */
  predicate Truthy(s: Option<string>) {
    s.Some? && s.value != ""
  }

  /** A request sent to the gateway, with the session as it stood while the call was awaited. */
  datatype Call = Call(request: Request, during: Session)

  /** The effect of one handler: the session afterwards and the requests it sent, in order. */
  datatype Step = Step(after: Session, calls: seq<Call>)

  /** The session's loading flag is set for as long as any request of the step is in flight, and cleared when the step ends. */
  predicate LoadingCoversCalls(st: Step) {
    (forall c | c in st.calls :: c.during.loading)
    && (st.calls != [] ==> !st.after.loading)
  }

  /** The fields that exist only because of the current person image. */
  predicate DerivedCleared(s: Session) {
    s.outfitAnalysis == None && s.matchAdvice == None && s.generatedImage == None
    && s.garmentImage == None && s.prompt == ""
  }

  // ---------------------------------------------------------------------------
  // Handlers
  // ---------------------------------------------------------------------------

  /** resetState: clears the five fields derived from the person image and nothing else. */
  function ResetState(s: Session): (r: Session)
    ensures DerivedCleared(r)
    ensures r.selectedImage == s.selectedImage && r.mode == s.mode
    ensures r.loading == s.loading && r.loadingMessage == s.loadingMessage
  {
    s.(outfitAnalysis := None, matchAdvice := None, generatedImage := None, garmentImage := None, prompt := "")
  }

  /**
   * handleAnalyzeOutfit: one critique request, sent with the loading flag up; on success the
   * critique is stored, on failure the analysis is left as it was; the flag always comes down.
   */
  function HandleAnalyzeOutfit(s: Session, image: string, reply: CallOutcome): (r: Step)
    ensures |r.calls| == 1 && r.calls[0].request == AnalyzeOutfitRequest(image)
    ensures r.calls[0].during.loading && r.calls[0].during.loadingMessage == AnalyzingStyleMessage
    ensures !r.after.loading && r.after.loadingMessage == AnalyzingStyleMessage
    ensures AnalyzeOutfit(reply).Ok? ==> r.after.outfitAnalysis == Some(AnalyzeOutfit(reply).value)
    ensures AnalyzeOutfit(reply).Err? ==> r.after.outfitAnalysis == s.outfitAnalysis
    ensures r.after.(outfitAnalysis := s.outfitAnalysis, loading := s.loading, loadingMessage := s.loadingMessage) == s
  {
    var busy := s.(loading := true, loadingMessage := AnalyzingStyleMessage);
    var settled :=
      match AnalyzeOutfit(reply)
      case Ok(text) => busy.(outfitAnalysis := Some(text))
      case Err(_) => busy;  // catch: only a notice
    Step(settled.(loading := false), [Call(AnalyzeOutfitRequest(image), busy)])  // finally
  }

  /**
   * The reader's callback for a new person photo: store it, reset the derived fields and
   * start the critique. While the critique is awaited the session already holds the new
   * photo with every derived field cleared and the mode kept.
   */
  function PersonImageLoaded(s: Session, base64: string, reply: CallOutcome): (r: Step)
    ensures |r.calls| == 1 && r.calls[0].request == AnalyzeOutfitRequest(base64)
    ensures var during := r.calls[0].during;
      during.selectedImage == Some(base64) && during.mode == s.mode && DerivedCleared(during) && during.loading
    ensures r.after.selectedImage == Some(base64) && r.after.mode == s.mode && !r.after.loading
    ensures r.after.matchAdvice == None && r.after.generatedImage == None
      && r.after.garmentImage == None && r.after.prompt == ""
    ensures r.after.outfitAnalysis == AnalyzeOutfit(reply).ToOption()
  {
    HandleAnalyzeOutfit(ResetState(s.(selectedImage := Some(base64))), base64, reply)
  }

  /** The reader's callback for a garment photo: store it and drop the old match advice only. */
  function GarmentImageLoaded(s: Session, data: string): (r: Session)
    ensures r.garmentImage == Some(data) && r.matchAdvice == None
    ensures r.(garmentImage := s.garmentImage, matchAdvice := s.matchAdvice) == s
  {
    s.(garmentImage := Some(data), matchAdvice := None)
  }

  /** The remove-image button: no person image and no derived field; the mode is kept. */
  function RemoveImage(s: Session): (r: Session)
    ensures r.selectedImage == None && DerivedCleared(r)
    ensures r.mode == s.mode && r.loading == s.loading && r.loadingMessage == s.loadingMessage
  {
    ResetState(s.(selectedImage := None))
  }

  /** The two mode tabs: switch the mode and keep everything else, garment and prompt included. */
  function SetMode(s: Session, mode: TryOnMode): (r: Session)
    ensures r.mode == mode && r.(mode := s.mode) == s
  {
    s.(mode := mode)
  }

  /** The prompt input and the preset tags: replace the prompt and keep everything else. */
  function SetPrompt(s: Session, text: string): (r: Session)
    ensures r.prompt == text && r.(prompt := s.prompt) == s
  {
    s.(prompt := text)
  }

  /** What the current mode needs before generating: a prompt (TEXT) or a garment (ITEM). */
  predicate InputReady(s: Session) {
    if s.mode == Text then s.prompt != "" else Truthy(s.garmentImage)
  }

  /** The TEXT branch of handleGenerate's try block: one restyle request, or an early return without a prompt. */
  function TryTextMode(s: Session, person: string, textReply: CallOutcome): (r: Step)
    requires s.loading
    ensures s.prompt == "" ==> r == Step(s, [])
    ensures s.prompt != "" ==>
      && |r.calls| == 1 && r.calls[0].request == GenerateVirtualTryOnRequest(person, s.prompt)
      && r.calls[0].during == s.(loadingMessage := ComposingLookMessage)
      && r.after == s.(loadingMessage := ComposingLookMessage,
                       generatedImage := if GenerateVirtualTryOn(textReply).Ok? then Some(GenerateVirtualTryOn(textReply).value) else s.generatedImage)
  {
    if s.prompt == "" then Step(s, [])  // early return
    else
      var composing := s.(loadingMessage := ComposingLookMessage);
      var call := Call(GenerateVirtualTryOnRequest(person, s.prompt), composing);
      match GenerateVirtualTryOn(textReply)
      case Ok(url) => Step(composing.(generatedImage := Some(url)), [call])
      case Err(_) => Step(composing, [call])  // catch: only a notice
  }

  /**
   * The ITEM branch of handleGenerate's try block: the match request, then, only if it
   * succeeded, the advice is stored and the item try-on request is sent; an early return
   * without a garment.
   */
  function TryItemMode(s: Session, person: string, matchReply: CallOutcome, itemReply: CallOutcome): (r: Step)
    requires s.loading
    ensures !Truthy(s.garmentImage) ==> r == Step(s, [])
    ensures Truthy(s.garmentImage) ==>
      && 1 <= |r.calls| <= 2
      && r.calls[0] == Call(AnalyzeMatchRequest(person, s.garmentImage.value), s.(loadingMessage := AnalyzingMatchMessage))
      && (|r.calls| == 2 <==> AnalyzeMatch(matchReply).Ok?)
    ensures Truthy(s.garmentImage) && AnalyzeMatch(matchReply).Err? ==>
      r.after == s.(loadingMessage := AnalyzingMatchMessage)
    ensures Truthy(s.garmentImage) && AnalyzeMatch(matchReply).Ok? ==>
      var fitting := s.(matchAdvice := Some(AnalyzeMatch(matchReply).value), loadingMessage := FittingItemMessage);
      && r.calls[1] == Call(GenerateVirtualTryOnWithItemRequest(person, s.garmentImage.value), fitting)
      && r.after == fitting.(generatedImage := if GenerateVirtualTryOnWithItem(itemReply).Ok?
                                               then Some(GenerateVirtualTryOnWithItem(itemReply).value)
                                               else s.generatedImage)
  {
    if !Truthy(s.garmentImage) then Step(s, [])  // early return
    else
      var garment := s.garmentImage.value;
      var matching := s.(loadingMessage := AnalyzingMatchMessage);
      var matchCall := Call(AnalyzeMatchRequest(person, garment), matching);
      match AnalyzeMatch(matchReply)
      case Err(_) => Step(matching, [matchCall])  // the throw skips the second call
      case Ok(advice) =>
        var fitting := matching.(matchAdvice := Some(advice), loadingMessage := FittingItemMessage);
        var itemCall := Call(GenerateVirtualTryOnWithItemRequest(person, garment), fitting);
        match GenerateVirtualTryOnWithItem(itemReply)
        case Ok(url) => Step(fitting.(generatedImage := Some(url)), [matchCall, itemCall])
        case Err(_) => Step(fitting, [matchCall, itemCall])
  }

  /**
   * handleGenerate. Without a person image nothing happens at all. Otherwise the loading
   * flag goes up and both results are cleared BEFORE the mode's input is checked, so a
   * missing prompt or garment still leaves both results cleared; the finally block always
   * brings the flag down.
   */
  function HandleGenerate(s: Session, textReply: CallOutcome, matchReply: CallOutcome,
                          itemReply: CallOutcome): (r: Step)
    ensures !Truthy(s.selectedImage) ==> r == Step(s, [])
    ensures Truthy(s.selectedImage) ==>
      && !r.after.loading
      && r.after.selectedImage == s.selectedImage && r.after.mode == s.mode && r.after.prompt == s.prompt
      && r.after.garmentImage == s.garmentImage && r.after.outfitAnalysis == s.outfitAnalysis
      && forall c | c in r.calls :: c.during.loading && c.during.generatedImage == None
    ensures Truthy(s.selectedImage) && !InputReady(s) ==>
      r == Step(s.(loading := false, generatedImage := None, matchAdvice := None), [])
    ensures Truthy(s.selectedImage) && s.mode == Text && s.prompt != "" ==>
      && |r.calls| == 1 && r.calls[0].request == GenerateVirtualTryOnRequest(s.selectedImage.value, s.prompt)
      && r.after.matchAdvice == None
      && r.after.generatedImage == GenerateVirtualTryOn(textReply).ToOption()
    ensures Truthy(s.selectedImage) && s.mode == Item && Truthy(s.garmentImage) ==>
      && |r.calls| >= 1
      && r.calls[0].request == AnalyzeMatchRequest(s.selectedImage.value, s.garmentImage.value)
      && r.calls[0].during.matchAdvice == None
  {
    if !Truthy(s.selectedImage) then Step(s, [])
    else
      var started := s.(loading := true, generatedImage := None, matchAdvice := None);
      var tried :=  // try
        if s.mode == Text then TryTextMode(started, s.selectedImage.value, textReply)
        else TryItemMode(started, s.selectedImage.value, matchReply, itemReply);
      Step(tried.after.(loading := false), tried.calls)  // finally
  }

  /** The primary button's enablement: not loading, and the mode's input is there. */
  predicate ActionEnabled(s: Session) {
    !s.loading && InputReady(s)
  }

  /** A click on the primary button: a disabled button does nothing, an enabled one runs handleGenerate. */
  function ClickGenerate(s: Session, textReply: CallOutcome, matchReply: CallOutcome,
                         itemReply: CallOutcome): (r: Step)
    ensures !ActionEnabled(s) ==> r == Step(s, [])
    ensures ActionEnabled(s) && !Truthy(s.selectedImage) ==> r == Step(s, [])
    ensures ActionEnabled(s) && Truthy(s.selectedImage) ==> r.calls != [] && !r.after.loading
  {
    if ActionEnabled(s) then HandleGenerate(s, textReply, matchReply, itemReply) else Step(s, [])
  }

  /** A key press in the prompt input: Enter runs handleGenerate with no enablement check. */
  function PromptKeyDown(s: Session, key: string, textReply: CallOutcome, matchReply: CallOutcome,
                         itemReply: CallOutcome): (r: Step)
    ensures key != "Enter" ==> r == Step(s, [])
    ensures key == "Enter" ==> r == HandleGenerate(s, textReply, matchReply, itemReply)
  {
    if key == "Enter" then HandleGenerate(s, textReply, matchReply, itemReply) else Step(s, [])
  }

  // ---------------------------------------------------------------------------
  // Properties of the handlers
  // ---------------------------------------------------------------------------

  /**
   * ITEM mode, match analysis failed: the item try-on is never requested (its outcome has
   * no influence), and both results stay empty.
   */
  lemma FailedMatchSkipsTryOn(s: Session, textReply: CallOutcome, matchReply: CallOutcome,
                              itemReply1: CallOutcome, itemReply2: CallOutcome)
    requires Truthy(s.selectedImage) && s.mode == Item && Truthy(s.garmentImage)
    requires AnalyzeMatch(matchReply).Err?
    ensures var r := HandleGenerate(s, textReply, matchReply, itemReply1);
      && r == HandleGenerate(s, textReply, matchReply, itemReply2)
      && |r.calls| == 1 && r.calls[0].request.instruction == CritiqueMatch
      && r.after.matchAdvice == None && r.after.generatedImage == None && !r.after.loading
  {
  }

  /**
   * ITEM mode, match analysis succeeded: the try-on is requested second, after the advice
   * was stored; the advice survives a failed try-on and the image is the try-on's result.
   */
  lemma MatchThenTryOn(s: Session, textReply: CallOutcome, matchReply: CallOutcome, itemReply: CallOutcome)
    requires Truthy(s.selectedImage) && s.mode == Item && Truthy(s.garmentImage)
    requires AnalyzeMatch(matchReply).Ok?
    ensures var r := HandleGenerate(s, textReply, matchReply, itemReply);
      && |r.calls| == 2
      && r.calls[0].request == AnalyzeMatchRequest(s.selectedImage.value, s.garmentImage.value)
      && r.calls[1].request == GenerateVirtualTryOnWithItemRequest(s.selectedImage.value, s.garmentImage.value)
      && r.calls[0].during.matchAdvice == None
      && r.calls[1].during.matchAdvice == Some(AnalyzeMatch(matchReply).value)
      && r.after.matchAdvice == Some(AnalyzeMatch(matchReply).value)
      && r.after.generatedImage == GenerateVirtualTryOnWithItem(itemReply).ToOption()
      && !r.after.loading
  {
  }

  /** Every handler keeps the loading flag up during each of its requests and down once it has sent any. */
  lemma HandlersBracketCallsWithLoading(s: Session, image: string, key: string, textReply: CallOutcome,
                                        matchReply: CallOutcome, itemReply: CallOutcome)
    ensures LoadingCoversCalls(HandleAnalyzeOutfit(s, image, textReply))
    ensures LoadingCoversCalls(PersonImageLoaded(s, image, textReply))
    ensures LoadingCoversCalls(HandleGenerate(s, textReply, matchReply, itemReply))
    ensures LoadingCoversCalls(ClickGenerate(s, textReply, matchReply, itemReply))
    ensures LoadingCoversCalls(PromptKeyDown(s, key, textReply, matchReply, itemReply))
  {
  }

  /** Between handlers the session is idle: every handler started idle ends idle. */
  lemma HandlersKeepIdle(s: Session, image: string, key: string, mode: TryOnMode, text: string,
                         textReply: CallOutcome, matchReply: CallOutcome, itemReply: CallOutcome)
    requires !s.loading
    ensures !PersonImageLoaded(s, image, textReply).after.loading
    ensures !HandleAnalyzeOutfit(s, image, textReply).after.loading
    ensures !GarmentImageLoaded(s, image).loading
    ensures !RemoveImage(s).loading
    ensures !SetMode(s, mode).loading && !SetPrompt(s, text).loading
    ensures !HandleGenerate(s, textReply, matchReply, itemReply).after.loading
    ensures !ClickGenerate(s, textReply, matchReply, itemReply).after.loading
    ensures !PromptKeyDown(s, key, textReply, matchReply, itemReply).after.loading
  {
  }

  /** A new person photo forgets the previous session: the result depends on its mode only. */
  lemma PersonImageForgetsSession(s1: Session, s2: Session, base64: string, reply: CallOutcome)
    requires s1.mode == s2.mode
    ensures PersonImageLoaded(s1, base64, reply) == PersonImageLoaded(s2, base64, reply)
  {
  }

  /**
   * Removing the photo returns to the initial session except for the mode and the last
   * loading message, which the handler does not touch.
   */
  lemma RemoveImageResets(s: Session)
    requires !s.loading
    ensures RemoveImage(s) == Initial.(mode := s.mode, loadingMessage := s.loadingMessage)
  {
  }

  /**
   * With a photo and an empty prompt in TEXT mode the button is disabled and a click does
   * nothing, but Enter in the prompt runs handleGenerate anyway: no request is sent, yet the
   * generated image and the match advice are cleared.
   */
  lemma EnterBypassesDisabledButton(s: Session, textReply: CallOutcome, matchReply: CallOutcome,
                                    itemReply: CallOutcome)
    requires Truthy(s.selectedImage) && s.mode == Text && s.prompt == ""
    ensures !ActionEnabled(s)
    ensures ClickGenerate(s, textReply, matchReply, itemReply) == Step(s, [])
    ensures var r := PromptKeyDown(s, "Enter", textReply, matchReply, itemReply);
      r.calls == [] && r.after == s.(loading := false, generatedImage := None, matchAdvice := None)
  {
  }

  /**
   * While loading, the button is disabled whatever the input, but Enter with a photo and a
   * prompt still sends a new restyle request.
   */
  lemma EnterBypassesLoadingGuard(s: Session, textReply: CallOutcome, matchReply: CallOutcome,
                                  itemReply: CallOutcome)
    requires s.loading && Truthy(s.selectedImage) && s.mode == Text && s.prompt != ""
    ensures !ActionEnabled(s)
    ensures ClickGenerate(s, textReply, matchReply, itemReply) == Step(s, [])
    ensures var r := PromptKeyDown(s, "Enter", textReply, matchReply, itemReply);
      && |r.calls| == 1 && r.calls[0].request == GenerateVirtualTryOnRequest(s.selectedImage.value, s.prompt)
      && !r.after.loading
  {
  }

  /** Choosing a garment keeps a previously generated image, the critique and the prompt. */
  lemma GarmentKeepsStaleImage(s: Session, data: string)
    ensures GarmentImageLoaded(s, data).generatedImage == s.generatedImage
    ensures GarmentImageLoaded(s, data).outfitAnalysis == s.outfitAnalysis
    ensures GarmentImageLoaded(s, data).prompt == s.prompt
  {
  }

  // ---------------------------------------------------------------------------
  // Scenarios
  // ---------------------------------------------------------------------------

  /** A fresh photo whose critique succeeds ends idle with the critique stored. */
  lemma ScenarioUploadAndCritique(photo: string, critique: string)
    requires critique != ""
    ensures var r := PersonImageLoaded(Initial, photo, Returned(GenerateContentResponse(None, Some(critique))));
      r.after == Initial.(selectedImage := Some(photo), outfitAnalysis := Some(critique),
                          loadingMessage := AnalyzingStyleMessage)
  {
  }

  /** An item try-on whose match and image both succeed stores the advice and the PNG image. */
  lemma ScenarioItemTryOn(person: string, garment: string, advice: string, payload: string)
    requires person != "" && garment != "" && advice != ""
    ensures
      var s := Initial.(selectedImage := Some(person), mode := Item, garmentImage := Some(garment));
      var image := Part(None, Some(InlineData(None, Some(payload))));
      var reply := GenerateContentResponse(Some([Candidate(Some(Content(Some([image]))))]), None);
      var r := HandleGenerate(s, Threw, Returned(GenerateContentResponse(None, Some(advice))), Returned(reply));
      r.after.matchAdvice == Some(advice) && r.after.generatedImage == Some(PngDataUrl(payload)) && !r.after.loading
  {
  }
}
