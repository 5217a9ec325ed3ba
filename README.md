# Virtual try-on session and gateway, in Dafny

This project models the two pieces of logic in a single-page virtual try-on application.
The user uploads a photo of themselves and receives a critique of their outfit from a
generative vision service. They can then have an image generated of themselves wearing
either a style described in text or a garment from a second photo.

- `GeminiService` (`gemini_service.dfy`) is the gateway of `services/geminiService.ts`:
  - `CleanBase64` strips a data-URL prefix.
  - `ExtractImageFromResponse` takes the first image part of the first candidate.
  - Four functions decode a call outcome into a text, an image URL or a fixed error.
  - The SDK response is a datatype (candidates, parts, optional inline data).
  - The SDK call itself is a parameter: `Returned(response)` or `Threw`.
- `Workflow` (`workflow.dfy`) describes each event handler of `App.tsx` as a function
  of a `Session` (the nine state variables). A handler that sends requests returns a
  `Step`: the session afterwards and the requests sent, in order. Each request comes with
  the session as it stood while that request was awaited. The handlers that send nothing
  (`ResetState`, `GarmentImageLoaded`, `RemoveImage`, `SetMode`, `SetPrompt`) return the
  new `Session` itself.
- `AppComponent.App` (`app.dfy`) is the component as an object. The state variables are
  fields. Each handler is a method that calls the setters in the source's order, with
  try/finally and early returns. Each method is proved to end where its `Workflow`
  function says, and to append exactly that function's requests to a ghost log `calls`.
- `AppComponent.MatchFailureScenario` is a usage scenario, not a handler. On a new `App`,
  it uploads a photo, switches to ITEM mode, picks a garment, and clicks with a failing
  match analysis. It checks, from the methods' contracts alone, that no advice, no image
  and no item request result.
- `Types.TryOnMode` is the TEXT/ITEM enumeration; `Wrappers` holds `Option` and `Result`.

Every handler runs to completion before the next one starts. Each awaited gateway call is
one step whose outcome is passed in as a parameter.

## Behaviour worth noting

- `handleGenerate` raises the loading flag and clears `generatedImage` and `matchAdvice`
  before it checks for a prompt or garment (App.tsx:85-96). So with a photo but no
  prompt or garment, it sends no request but still clears both results. It is not a
  no-op in that case (`Workflow.HandleGenerate`, `Workflow.EnterBypassesDisabledButton`).
- Enter in the prompt field calls `handleGenerate` without the button's enablement check
  (App.tsx:228 against App.tsx:282). With an empty prompt, a click does nothing, but Enter
  clears a generated image that is on screen.
- Removing the photo does not restore the initial session completely. The mode and the
  last loading message are kept (`Workflow.RemoveImageResets`).
- A new garment clears only the match advice. A generated image from the previous garment
  stays on screen (`Workflow.GarmentKeepsStaleImage`).
- Every image is sent declared as `image/jpeg`, whatever its real type
  (`GeminiService.PngUploadIsDeclaredJpeg`). Every returned image is labelled PNG.
- Inline data without a `data` field produces the URL `data:image/png;base64,undefined`,
  because the template string renders a missing value that way (`GeminiService.TemplateText`).
- The extraction error "No image generated." never reaches the application. Both try-on
  functions replace it with their own fixed error.

## Model

| member | source | states |
|---|---|---|
| GeminiService.CleanBase64 | services/geminiService.ts:6 | The result is a suffix of the input and no longer than it. It is shorter exactly when the input starts with the png, jpeg, jpg or webp data-URL prefix, and then the input is that prefix followed by the result. Any other input is returned unchanged. |
| GeminiService.CleanBase64Unwraps | services/geminiService.ts:6 | Each of the four prefixes followed by any payload cleans to exactly that payload. |
| GeminiService.CleanBase64KeepsGif | services/geminiService.ts:6 | A gif data URL is returned unchanged. |
| GeminiService.CleanBase64IsAnchored | services/geminiService.ts:6 | Input whose first character is not 'd' is unchanged, so a prefix later in the string is not removed. |
| GeminiService.CleanBase64StripsOnce | services/geminiService.ts:6 | Only one prefix is removed: a doubly wrapped payload keeps its inner prefix, and it takes a second clean to reach the payload. |
| GeminiService.PngUploadIsDeclaredJpeg | services/geminiService.ts:17-21 | A PNG data URL is sent as its bare payload with MIME type image/jpeg. |
| GeminiService.RequestsCarryBarePayloads | services/geminiService.ts:11-130 | For a png, jpeg, jpg or webp data URL, each of the four requests carries only the bare payload, declared image/jpeg. Images go in argument order, and the text try-on request carries the user's prompt. |
| GeminiService.RequestsSendOtherImagesWhole | services/geminiService.ts:11-130 | An image without one of the four prefixes is sent whole, declared image/jpeg, in each of the four requests. |
| GeminiService.FirstCandidateParts | services/geminiService.ts:141 | There are parts exactly when candidates exist, are non-empty, and the first one has content with parts; they are that candidate's parts. |
| GeminiService.FindImagePart | services/geminiService.ts:143 | The search finds nothing exactly when no part has inline data. Otherwise it finds the part at the first index that has inline data. |
| GeminiService.FindImagePartIsFirst | services/geminiService.ts:143 | Whatever follows the first part with inline data, the search returns that part. |
| GeminiService.ExtractImageFromResponse | services/geminiService.ts:140-149 | It succeeds exactly when the first candidate's parts include one with inline data. The result is the PNG data URL of the first such part's data. Every failure is "No image generated.". |
| GeminiService.ExtractImageUsesFirstImagePart | services/geminiService.ts:141-146 | If part i is the first part with inline data, the result is the PNG data URL of part i's data. |
| GeminiService.ExtractImageIgnoresLaterCandidates | services/geminiService.ts:141 | Candidates after the first and the text accessor have no effect on the result. |
| GeminiService.ExtractThenCleanRoundTrip | services/geminiService.ts:145 | Cleaning the extracted image URL gives back exactly the image part's data. |
| GeminiService.TextOr | services/geminiService.ts:36 | The result is the response text when that text is a non-empty string, and the fallback otherwise. It is never empty when the fallback is not empty. |
| GeminiService.AnalyzeOutfit | services/geminiService.ts:11-41 | It fails exactly when the call throws, and then with "Fashion analysis failed.". Otherwise the result is the text or the fixed fallback, and never empty. |
| GeminiService.AnalyzeMatch | services/geminiService.ts:46-72 | It fails exactly when the call throws, and then with "Match analysis failed.". Otherwise the result is the text or its fallback, and never empty. |
| GeminiService.GenerateVirtualTryOn | services/geminiService.ts:77-105 | It succeeds exactly when the call returns and extraction succeeds, with the extracted URL. Every other outcome is "Virtual try-on failed.". |
| GeminiService.GenerateVirtualTryOnWithItem | services/geminiService.ts:110-138 | The same as the text try-on, with the error "Virtual try-on with item failed.". |
| GeminiService.GeneratedImagesAreCleanablePng | services/geminiService.ts:145 | An image generated by either try-on function starts with the PNG data-URL prefix, and cleaning it removes exactly that prefix. |
| Workflow.ResetState | App.tsx:61-67 | Clears the critique, advice, generated image, garment and prompt. The photo, mode and loading state are unchanged. |
| Workflow.HandleAnalyzeOutfit | App.tsx:69-80 | Sends one critique request with loading set and the analysing message shown. On success the critique is stored; on failure the old value stays. Loading ends false, and no other field changes. |
| Workflow.PersonImageLoaded | App.tsx:38-42 | While the critique is awaited, the session holds the new photo with every derived field cleared, the mode unchanged and loading set. Afterwards the same holds with loading false and the critique's result stored. |
| Workflow.GarmentImageLoaded | App.tsx:53-56 | Stores the garment and clears the match advice; every other field is unchanged. |
| Workflow.RemoveImage | App.tsx:153 | No photo and every derived field cleared. The mode and loading state are unchanged. |
| Workflow.SetMode | App.tsx:193 | Changes the mode only; the garment, prompt and results are kept. |
| Workflow.SetPrompt | App.tsx:225 | Changes the prompt only. |
| Workflow.TryTextMode | App.tsx:90-94 | Without a prompt: nothing. Otherwise one restyle request carrying the prompt, made under the composing message. On success the generated image is the try-on's URL; on failure it is unchanged. |
| Workflow.TryItemMode | App.tsx:95-107 | Without a garment: nothing. Otherwise the match request first, and the item request second only when the match succeeded. The item request is sent with the advice already stored. The image is set only on try-on success. |
| Workflow.HandleGenerate | App.tsx:82-114 | Without a truthy photo, nothing changes, not even loading. Otherwise loading ends false, the inputs and critique are kept, and every request is awaited with loading set and no generated image. A missing prompt or garment sends nothing but still clears both results. In TEXT mode the image is the try-on's result and the advice stays empty. |
| Workflow.ClickGenerate | App.tsx:280-282 | A disabled button changes nothing. An enabled click with a photo sends at least one request and ends with loading false. |
| Workflow.PromptKeyDown | App.tsx:228 | Enter runs handleGenerate with no enablement check; any other key changes nothing. |
| Workflow.FailedMatchSkipsTryOn | App.tsx:99-110 | In ITEM mode, when the match fails, only the match request is sent and the try-on outcome has no effect. Advice and image stay empty and loading is false. |
| Workflow.MatchThenTryOn | App.tsx:98-106 | When the match succeeds, the match request goes first and the item request second, sent with the advice stored. The advice is kept even if the try-on fails, and the image is the try-on's result. |
| Workflow.HandlersBracketCallsWithLoading | App.tsx:69-113 | For every handler that sends requests, loading is true during each request and false once the handler ends. |
| Workflow.HandlersKeepIdle | App.tsx:77-113 | Every handler that starts with loading false ends with loading false. |
| Workflow.PersonImageForgetsSession | App.tsx:38-42 | After a new photo, the session and requests depend only on the previous mode, not on any other field. |
| Workflow.RemoveImageResets | App.tsx:153 | From an idle session, removing the photo gives the initial session, except that the mode and the last loading message are kept. |
| Workflow.EnterBypassesDisabledButton | App.tsx:228 | In TEXT mode with a photo and no prompt, the button is disabled and a click changes nothing. Enter still clears the generated image and advice, without sending a request. |
| Workflow.EnterBypassesLoadingGuard | App.tsx:228 | While loading, the button is disabled and a click changes nothing. Enter with a photo and a prompt still sends a new restyle request, and loading ends false. |
| Workflow.GarmentKeepsStaleImage | App.tsx:53-56 | A new garment keeps the previously generated image, the critique and the prompt. |
| Workflow.ScenarioUploadAndCritique | App.tsx:38-42 | From the initial session, a photo whose critique returns text T ends idle with T stored. |
| Workflow.ScenarioItemTryOn | App.tsx:95-107 | An item try-on whose match and image both succeed stores the advice and the image as a PNG data URL. |
| AppComponent.App.constructor | App.tsx:10-28 | The component starts in the initial session with no request sent. |
| AppComponent.App.ResetState | App.tsx:61-67 | Implements Workflow.ResetState on the fields; no request is sent. |
| AppComponent.App.HandleAnalyzeOutfit | App.tsx:69-80 | Implements Workflow.HandleAnalyzeOutfit and logs its request. |
| AppComponent.App.PersonImageLoaded | App.tsx:38-42 | Implements Workflow.PersonImageLoaded: set the photo, reset, analyse. |
| AppComponent.App.GarmentImageLoaded | App.tsx:53-56 | Implements Workflow.GarmentImageLoaded. |
| AppComponent.App.RemoveImage | App.tsx:153 | Implements Workflow.RemoveImage. |
| AppComponent.App.SetMode | App.tsx:203 | Implements Workflow.SetMode. |
| AppComponent.App.SetPrompt | App.tsx:235 | Implements Workflow.SetPrompt. |
| AppComponent.App.TryTextMode | App.tsx:90-94 | Implements Workflow.TryTextMode, including its early return. |
| AppComponent.App.TryItemMode | App.tsx:95-107 | Implements Workflow.TryItemMode: the early return, and the match's throw skipping the second request. |
| AppComponent.App.HandleGenerate | App.tsx:82-114 | Implements Workflow.HandleGenerate: guard, loading and clears, the try branch, and the finally. |
| AppComponent.App.ActionEnabled | App.tsx:282 | The button is enabled exactly when loading is false and the mode's input is present: a non-empty prompt, or a truthy garment. |
| AppComponent.App.ClickGenerate | App.tsx:280-282 | Implements Workflow.ClickGenerate. |
| AppComponent.App.PromptKeyDown | App.tsx:228 | Implements Workflow.PromptKeyDown. |

## Left out

- File reading (`FileReader`, the file-input refs, `.click()`, the `if (file)` guard) is browser I/O. An upload is the reader's callback, given the data URL it read.
- The SDK call `ai.models.generateContent`, the API key, the model names and the English instruction texts are out. A call is its outcome (`Returned` or `Threw`). An instruction is an enumeration, except the user's prompt, which is kept.
- How the SDK derives its `text` accessor from the candidates is not modelled; `text` is a field of the response.
- `alert` and `console.error` are out: they only show or log a notice.
- Async interleaving is out, for example a critique landing after a newer upload, along with React's batching and stale closures. The critique started by an upload is not awaited in the source; the model runs it to completion inside the upload. As a result, loading is always false between handlers, and the `loading` term of the button check never decides anything in a reachable session. `Workflow.EnterBypassesLoadingGuard` states what Enter would do from a loading session, which only such interleaving could produce.
- Rendering is out: the JSX, the CSS, `components/Header.tsx` and the spinner. PromptKeyDown is not restricted to the TEXT-mode render in which the prompt input exists.
- `types.ts` is reduced to `TryOnMode`. `AppState`, `AnalysisResult` and `ImageGenerationResult` are unused by the source.
- The regular expression in `cleanBase64` is modelled as four literal prefixes checked at the start of the string.
