/**
 * The App component of App.tsx as an object: its state variables are fields, and each
 * event handler is a method that updates them in the order the handler calls its setters.
 *
 * Each method is proved to take the session exactly where the matching function of
 * `Workflow` says, and to send exactly the requests it lists; the properties of the
 * handlers are proved about those functions.
 */
module AppComponent {
  import opened Wrappers
  import opened Types
  import opened GeminiService
  import Workflow

  class App {
    var selectedImage: Option<string>
    var mode: TryOnMode
    var outfitAnalysis: Option<string>
    var matchAdvice: Option<string>
    var generatedImage: Option<string>
    var prompt: string
    var garmentImage: Option<string>
    var loading: bool
    var loadingMessage: string

    /** The requests sent to the gateway so far, each with the session as it stood during the call. */
    ghost var calls: seq<Workflow.Call>

    /** The current values of the nine state variables. */
    function State(): Workflow.Session
      reads this
    {
      Workflow.Session(selectedImage, mode, outfitAnalysis, matchAdvice, generatedImage,
                       prompt, garmentImage, loading, loadingMessage)
    }

    constructor ()
      ensures State() == Workflow.Initial && calls == []
    {
      selectedImage := None;
      mode := Text;
      outfitAnalysis := None;
      matchAdvice := None;
      generatedImage := None;
      prompt := "";
      garmentImage := None;
      loading := false;
      loadingMessage := "";
      calls := [];
    }

    method ResetState()
      modifies this
      ensures State() == Workflow.ResetState(old(State())) && calls == old(calls)
    {
      outfitAnalysis := None;
      matchAdvice := None;
      generatedImage := None;
      garmentImage := None;
      prompt := "";
    }

    method HandleAnalyzeOutfit(image: string, reply: CallOutcome)
      modifies this
      ensures State() == Workflow.HandleAnalyzeOutfit(old(State()), image, reply).after
      ensures calls == old(calls) + Workflow.HandleAnalyzeOutfit(old(State()), image, reply).calls
    {
      loading := true;
      loadingMessage := Workflow.AnalyzingStyleMessage;
      calls := calls + [Workflow.Call(AnalyzeOutfitRequest(image), State())];
      var result := AnalyzeOutfit(reply);
      if result.Ok? {
        outfitAnalysis := Some(result.value);
      }
      // catch: a notice only; finally:
      loading := false;
    }

    /** The file reader's callback for the person photo, given the data URL it read. */
    method PersonImageLoaded(base64: string, reply: CallOutcome)
      modifies this
      ensures State() == Workflow.PersonImageLoaded(old(State()), base64, reply).after
      ensures calls == old(calls) + Workflow.PersonImageLoaded(old(State()), base64, reply).calls
    {
      selectedImage := Some(base64);
      ResetState();
      HandleAnalyzeOutfit(base64, reply);
    }

    /** The file reader's callback for the garment photo, given the data URL it read. */
    method GarmentImageLoaded(data: string)
      modifies this
      ensures State() == Workflow.GarmentImageLoaded(old(State()), data) && calls == old(calls)
    {
      garmentImage := Some(data);
      matchAdvice := None;
    }

    method RemoveImage()
      modifies this
      ensures State() == Workflow.RemoveImage(old(State())) && calls == old(calls)
    {
      selectedImage := None;
      ResetState();
    }

    method SetMode(m: TryOnMode)
      modifies this
      ensures State() == Workflow.SetMode(old(State()), m) && calls == old(calls)
    {
      mode := m;
    }

    method SetPrompt(text: string)
      modifies this
      ensures State() == Workflow.SetPrompt(old(State()), text) && calls == old(calls)
    {
      prompt := text;
    }

    /** The TEXT branch of handleGenerate's try block; `return` is its early return. */
    method TryTextMode(person: string, textReply: CallOutcome)
      requires loading
      modifies this
      ensures State() == Workflow.TryTextMode(old(State()), person, textReply).after
      ensures calls == old(calls) + Workflow.TryTextMode(old(State()), person, textReply).calls
    {
      if prompt == "" {
        return;
      }
      loadingMessage := Workflow.ComposingLookMessage;
      calls := calls + [Workflow.Call(GenerateVirtualTryOnRequest(person, prompt), State())];
      var resultImage := GenerateVirtualTryOn(textReply);
      if resultImage.Ok? {
        generatedImage := Some(resultImage.value);
      }
    }

    /** The ITEM branch of handleGenerate's try block; `return` is its early return or the match's throw. */
    method TryItemMode(person: string, matchReply: CallOutcome, itemReply: CallOutcome)
      requires loading
      modifies this
      ensures State() == Workflow.TryItemMode(old(State()), person, matchReply, itemReply).after
      ensures calls == old(calls) + Workflow.TryItemMode(old(State()), person, matchReply, itemReply).calls
    {
      if !Workflow.Truthy(garmentImage) {
        return;
      }
      var garment := garmentImage.value;
      loadingMessage := Workflow.AnalyzingMatchMessage;
      calls := calls + [Workflow.Call(AnalyzeMatchRequest(person, garment), State())];
      var advice := AnalyzeMatch(matchReply);
      if advice.Err? {
        return;
      }
      matchAdvice := Some(advice.value);
      loadingMessage := Workflow.FittingItemMessage;
      calls := calls + [Workflow.Call(GenerateVirtualTryOnWithItemRequest(person, garment), State())];
      var resultImage := GenerateVirtualTryOnWithItem(itemReply);
      if resultImage.Ok? {
        generatedImage := Some(resultImage.value);
      }
    }

    method HandleGenerate(textReply: CallOutcome, matchReply: CallOutcome, itemReply: CallOutcome)
      modifies this
      ensures State() == Workflow.HandleGenerate(old(State()), textReply, matchReply, itemReply).after
      ensures calls == old(calls) + Workflow.HandleGenerate(old(State()), textReply, matchReply, itemReply).calls
    {
      if !Workflow.Truthy(selectedImage) {
        return;
      }
      loading := true;
      generatedImage := None;
      matchAdvice := None;
      if mode == Text {  // try
        TryTextMode(selectedImage.value, textReply);
      } else {
        TryItemMode(selectedImage.value, matchReply, itemReply);
      }
      // finally:
      loading := false;
    }

    /** The primary button's `disabled` attribute, negated. */
    function ActionEnabled(): (enabled: bool)
      reads this
      ensures enabled <==> Workflow.ActionEnabled(State())
      ensures enabled ==> !loading
    {
      !loading && (if mode == Text then prompt != "" else Workflow.Truthy(garmentImage))
    }

    /** A click on the primary button, which the browser ignores while it is disabled. */
    method ClickGenerate(textReply: CallOutcome, matchReply: CallOutcome, itemReply: CallOutcome)
      modifies this
      ensures State() == Workflow.ClickGenerate(old(State()), textReply, matchReply, itemReply).after
      ensures calls == old(calls) + Workflow.ClickGenerate(old(State()), textReply, matchReply, itemReply).calls
    {
      if ActionEnabled() {
        HandleGenerate(textReply, matchReply, itemReply);
      }
    }

    /** A key press in the prompt input. */
    method PromptKeyDown(key: string, textReply: CallOutcome, matchReply: CallOutcome, itemReply: CallOutcome)
      modifies this
      ensures State() == Workflow.PromptKeyDown(old(State()), key, textReply, matchReply, itemReply).after
      ensures calls == old(calls) + Workflow.PromptKeyDown(old(State()), key, textReply, matchReply, itemReply).calls
    {
      if key == "Enter" {
        HandleGenerate(textReply, matchReply, itemReply);
      }
    }
  }

  /** A client: a photo whose critique fails, then an item try-on whose match analysis fails. */
  method MatchFailureScenario(photo: string, garment: string)
    requires photo != "" && garment != ""
  {
    var app := new App();
    app.PersonImageLoaded(photo, Threw);
    assert app.selectedImage == Some(photo) && app.outfitAnalysis == None && !app.loading;
    app.SetMode(Item);
    app.GarmentImageLoaded(garment);
    assert app.ActionEnabled();
    app.ClickGenerate(Threw, Threw, Returned(GenerateContentResponse(None, None)));
    assert app.matchAdvice == None && app.generatedImage == None && !app.loading;
    assert |app.calls| == 2 && app.calls[1].request == AnalyzeMatchRequest(photo, garment);
  }
}
