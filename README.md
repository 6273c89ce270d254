# Banner generator: verified model of the campaign form, the prompt builder and the generation service

The application lets a seller fill in a campaign form (product, prices, call to
action, colours, extra badges, a countdown, a banner size, a style and optionally a
product photo). It turns the options into a Portuguese prompt, sends the prompt and
the photo to an image model, and shows the image that comes back or an error message.

This project models that path in Dafny:

- `Types` and `Constants`: the `BannerOptions` record, the banner size table and the
  three additional elements the builder recognises.
- `JsStrings` and `JsErrors`: the pieces of JavaScript the code relies on:
  - truthiness of strings;
  - `String.prototype.includes`;
  - `String.prototype.trim` over the ECMAScript white-space set;
  - thrown values, which are either an `Error` or something else;
  - settled promises.
- `PromptBuilder`: `buildPrompt`.
  - The prompt is a list of clauses (`PromptClauses`) rendered through a template of
    fixed sentences (`Template`).
  - `PT_BR` holds the sentences the generator sends.
  - `BuildPromptWith` accumulates the prompt with `+=` under the same `if`s as the
    source, and is proved equal to the rendered clause list.
- `DataUri`: the product-image pattern `^data:(image\/\w+);base64,(.*)$` (dot matches
  newlines) as a parser, and the data URI the service forms from the model's image.
- `ServiceMessages`: the service's error messages, and the two substrings (`SAFETY`,
  `400`) by which it reclassifies failures.
- `GeminiService`: `generateBanner`, as a method and as a specification function.
  - The API-key check comes first.
  - The request is assembled (image part first, prompt last).
  - The response is decoded.
  - Every failure goes through the catch block.
  - The model call is a function parameter, `sdk: Request -> Settled<Response>`.
  - The method also returns the requests it sent, so "no request when the key is
    missing or the image is malformed" is part of its contract.
- `BannerFormState`: the form's pure updaters and the class `BannerForm`. The class
  holds `formData` and `imagePreview`, and its handlers change them in place.
- `AppState`: the class `App` with `loading`, `error` and `generatedImageUrl`.
  `HandleGenerateBanner` resets them, runs the service and settles them.

## Model

| member | source | states |
|---|---|---|
| PromptBuilder.FindSizeLabel | services/geminiService.ts:6 | `None` exactly when no entry has the token; otherwise the label of the FIRST entry whose value is the token |
| PromptBuilder.SizeLabelTable | constants.ts:25-30 | "16:9", "1:1" and "9:16" resolve to their first table labels ("1:1" to the Shopee label, not the second "1:1" entry); any other token is substituted raw |
| PromptBuilder.BuildPrompt | services/geminiService.ts:5-50 | the prompt built with the generator's own sentences is the rendered clause list `PromptText(o)` |
| PromptBuilder.BuildPromptWith | services/geminiService.ts:8-49 | the `+=` accumulation under the section's `if`s yields exactly `Join(PromptClauses(o), t)` for any template |
| PromptBuilder.MainInstructionBranch | services/geminiService.ts:11-14 | with a truthy image the main instruction is the supplied-image clause and no clause quotes name or category; otherwise the generate clause quoting both is present and the supplied-image clause is absent |
| PromptBuilder.PromptQuotesProduct | services/geminiService.ts:13 | without a truthy image the prompt text contains the product name and the category, whatever the sentences |
| PromptBuilder.AdditionalHeaderIff | services/geminiService.ts:25-26 | the additional-graphics header is present iff the element list is non-empty or the countdown is truthy; the closing block is the last clause and occurs only there |
| PromptBuilder.PromptEndsWithClosing | services/geminiService.ts:41-48 | the prompt text ends with the closing block |
| PromptBuilder.SectionEnds | services/geminiService.ts:26-38 | inside the section the header is first and the countdown line, when present, is last |
| PromptBuilder.SectionOrder | services/geminiService.ts:27-38 | section lines come in the fixed order header, free shipping, warranty, last units, countdown, each at most once |
| PromptBuilder.SectionMembership | services/geminiService.ts:27-38 | each recognised element's line is present iff the element is in the list; the countdown line is present iff the countdown is truthy and quotes it |
| PromptBuilder.SectionIgnoresOrderAndRepeats | services/geminiService.ts:27-35 | two element lists with the same members give the same prompt, whatever their order or repetitions |
| PromptBuilder.UnrecognisedAddsNothing | services/geminiService.ts:25-35 | an unrecognised value adds nothing to a prompt that has the section; a list of only unrecognised values with an empty countdown yields the header alone |
| DataUri.WordRun | services/geminiService.ts:65 | the length of the longest run of `\w` characters at the start of the string |
| DataUri.ParseDataUri | services/geminiService.ts:65 | a match yields an `image/<word>` media type and a payload that re-form the input string |
| DataUri.ParseFormat | services/geminiService.ts:65 | round trip: every `data:image/<word>;base64,<payload>` URI parses back to exactly its media type and payload, newlines included |
| DataUri.ParseIff | services/geminiService.ts:65 | the pattern matches iff the string is some image data URI |
| DataUri.RejectsNonWordSubtype | services/geminiService.ts:65-68 | a subtype whose word run is followed by anything but `;` is refused |
| DataUri.RejectsSvg | services/geminiService.ts:65-68 | `image/svg+xml` is refused |
| DataUri.AcceptsPng | services/geminiService.ts:65-70 | a PNG data URI yields `image/png` and its payload |
| JsStrings.TrimStartIsSuffix | services/geminiService.ts:98 | removing leading white space keeps a suffix of the text |
| JsStrings.TrimEndIsPrefix | services/geminiService.ts:98 | removing trailing white space keeps a prefix of the text |
| JsStrings.BlankTrimsToEmpty | services/geminiService.ts:98-99 | a text made only of white space trims to the empty (falsy) string |
| JsStrings.TrimBounds | services/geminiService.ts:98 | gives the two cut points of the trim: the text before the first and after the second is all white space, and the trimmed text is what lies between them |
| JsStrings.TrimIsSlice | services/geminiService.ts:98 | the trimmed text is a slice of the text, cut only at white space, and neither starts nor ends with white space |
| JsStrings.TrimEmptyIffBlank | services/geminiService.ts:98-99 | the trimmed text is empty (falsy) iff the text is all white space |
| JsStrings.TrimUnpadded | services/geminiService.ts:98 | text without surrounding white space is its own trim |
| JsStrings.IncludesQuoted | services/geminiService.ts:100 | a token absent from a prefix ending in a quote and free of quotes occurs in `prefix + text + quote` iff it occurs in `text` |
| ServiceMessages.NoTokenCharsExcludes | services/geminiService.ts:108 | a message with no `Y` and no `4` contains neither `SAFETY` nor `400` |
| ServiceMessages.InvalidUriNoTokenChars | services/geminiService.ts:67 | the invalid-image message has no `Y` and no `4` |
| ServiceMessages.NoImageNoTokenChars | services/geminiService.ts:103 | the no-image message has no `Y` and no `4` |
| ServiceMessages.BlockedNoTokenChars | services/geminiService.ts:109 | the blocked message has no `Y` and no `4` |
| ServiceMessages.CommFailureNoTokenChars | services/geminiService.ts:113 | the communication-failure message has no `Y` and no `4` |
| ServiceMessages.RefusalPrefixNoTokenChars | services/geminiService.ts:100 | the refusal sentence has no `Y` and no `4` and ends with the opening quote |
| GeminiService.RequestShape | services/geminiService.ts:62-88 | the request names the image model and only the IMAGE modality; the prompt is the one text part and comes last; an inline part comes first iff there is a truthy image, and its media type and payload re-form the supplied data URI |
| GeminiService.FirstInlineIndex | services/geminiService.ts:91 | the first index whose part has inline data, all earlier parts having none; the part count when no part has any |
| GeminiService.DecodeResponse | services/geminiService.ts:90-103 | fulfilled iff the first candidate has a part with inline data; every rejection is an `Error` |
| GeminiService.Reclassify | services/geminiService.ts:105-114 | the result is always an `Error`, and is the thrown value itself, the blocked message or the communication-failure message |
| GeminiService.Outcome | services/geminiService.ts:82-114 | every rejection after the model call is an `Error` |
| GeminiService.PassesThrough | services/geminiService.ts:107-111 | an `Error` whose message lacks `Y` and `4` is rethrown unchanged |
| GeminiService.InvalidUriPassesThrough | services/geminiService.ts:66-67 | the invalid-image error survives the catch block unchanged |
| GeminiService.NoImagePassesThrough | services/geminiService.ts:103 | the no-image error survives the catch block unchanged |
| GeminiService.BlockedPassesThrough | services/geminiService.ts:108-109 | the blocked message is not reclassified again |
| GeminiService.CommFailurePassesThrough | services/geminiService.ts:113 | the communication-failure message is not reclassified |
| GeminiService.NonErrorIsCommFailure | services/geminiService.ts:113 | a thrown value that is not an `Error` becomes the communication-failure message |
| GeminiService.TokenIsBlocked | services/geminiService.ts:108-109 | any `Error` whose message contains `SAFETY` or `400` anywhere becomes the blocked message |
| GeminiService.RethrownIff | services/geminiService.ts:107-111 | an `Error` leaves the catch block unchanged iff its message contains neither `SAFETY` nor `400`, or it is already the blocked message |
| GeminiService.ReclassifyIdempotent | services/geminiService.ts:105-114 | reclassifying twice equals reclassifying once |
| GeminiService.RefusalReclassified | services/geminiService.ts:98-111 | the refusal error becomes the blocked message iff the model's text contains `SAFETY` or `400`; otherwise it passes unchanged |
| GeminiService.DecodedImageUri | services/geminiService.ts:93-96 | an image part yields exactly `data:<mimeType>;base64,<data>` for every media type, with `undefined` written for a field the response leaves out |
| GeminiService.ImageRoundTrip | services/geminiService.ts:93-96 | an image with an `image/<word>` media type yields `data:<mime>;base64,<data>`, which the product-image pattern parses back to the same media type and payload |
| GeminiService.NoImageOutcome | services/geminiService.ts:98-103 | without an image, truthy trimmed text gives the (reclassified) refusal quoting it; otherwise the no-image error |
| GeminiService.FirstCandidateFirstPart | services/geminiService.ts:90 | candidates after the first never change the outcome |
| GeminiService.EmptyResponse | services/geminiService.ts:90-103 | a response with no candidates and no text is the no-image error |
| GeminiService.ServiceResult | services/geminiService.ts:53-115 | the settled result of the service; every rejection is an `Error` |
| GeminiService.GenerateBanner | services/geminiService.ts:53-115 | without a truthy key: the key error and no request sent; with a key and a malformed image: the invalid-image error and no request sent; otherwise exactly one request, `RequestFor(o, prompt)`, and the decoded, reclassified outcome of the model's answer |
| BannerFormState.WithField | components/BannerForm.tsx:37-40 | the named field holds the new value and every other field, the image and the element list are unchanged |
| BannerFormState.WithFieldLaws | components/BannerForm.tsx:39 | writing a field's own value changes nothing; a second edit of a field overrides the first |
| BannerFormState.RemoveAll | components/BannerForm.tsx:49 | the result holds exactly the elements other than the removed value, and is no longer |
| BannerFormState.RemoveAllAppend | components/BannerForm.tsx:49 | removal distributes over concatenation, so the remaining elements keep their relative order |
| BannerFormState.RemoveAllAbsent | components/BannerForm.tsx:49 | removing an absent value leaves the list unchanged |
| BannerFormState.Toggle | components/BannerForm.tsx:44-51 | a check appends the value at the end and keeps the old list as prefix; an uncheck removes every occurrence and keeps membership of all other values |
| BannerFormState.ToggleRoundTrip | components/BannerForm.tsx:46-49 | checking an absent value and then unchecking it restores the list |
| BannerFormState.RemoveAllNoDuplicates | components/BannerForm.tsx:49 | removal keeps a duplicate-free list duplicate-free |
| BannerFormState.ToggleNoDuplicates | components/BannerForm.tsx:46-49 | a toggle keeps the list duplicate-free iff it is an uncheck or checks an absent value; re-checking a present value creates a duplicate |
| BannerFormState.ClickLaws | components/BannerForm.tsx:181 | with the checkbox showing `includes(el)`, two clicks on an absent value restore the list and clicks never create a duplicate |
| BannerFormState.RecheckKeepsPrompt | components/BannerForm.tsx:47 | re-checking a present value leaves the prompt unchanged |
| BannerFormState.InitialPrompt | components/BannerForm.tsx:19-33 | the initial options have no image, the element list exactly ["Frete Grátis"], the first size token, and a section of header, free-shipping line and countdown line |
| BannerFormState.BannerForm.constructor | components/BannerForm.tsx:19-34 | the form starts with the initial options and no preview |
| BannerFormState.BannerForm.HandleChange | components/BannerForm.tsx:37-40 | the options become `WithField` of the old options; the preview is unchanged |
| BannerFormState.BannerForm.HandleCheckboxChange | components/BannerForm.tsx:42-52 | only the element list changes, to `Toggle` of the old list |
| BannerFormState.BannerForm.ClickCheckbox | components/BannerForm.tsx:181 | a click toggles against the box's shown state and keeps a duplicate-free list duplicate-free |
| BannerFormState.BannerForm.LoadImage | components/BannerForm.tsx:58-61 | the options' image and the preview both become the loaded data URI; nothing else changes |
| BannerFormState.BannerForm.RemoveImage | components/BannerForm.tsx:67-69 | the image becomes absent and the preview empty; nothing else changes |
| AppState.Shown | App.tsx:17-26 | after settling, loading is off and exactly one of error and image is set: the image on success, the error's message on failure |
| AppState.ShownServiceMessage | App.tsx:21-23 | every failure the service produces shows its own `Error` message, never the fallback; a missing key and a malformed image show their messages |
| AppState.ShownBlocked | App.tsx:21-23 | a model failure whose message mentions `SAFETY` or `400` shows the blocked message |
| AppState.App.constructor | App.tsx:8-10 | the page starts not loading, with no error and no image |
| AppState.App.Begin | App.tsx:14-16 | starting a request sets loading and clears the error and the image |
| AppState.App.Settle | App.tsx:17-26 | the page ends in `Shown(r)` for the settled result `r` |
| AppState.App.HandleGenerateBanner | App.tsx:13-27 | after one request the page shows `Shown` of the service's result |

## Left out

- The model call (`GoogleGenAI` construction and `ai.models.generateContent`) is a
  parameter `sdk: Request -> Settled<Response>`. The network, the SDK and its own
  validation are not modelled.
- The API key (`process.env.API_KEY`) is a parameter `apiKey: Option<string>`.
- `console.error` logging is left out; it has no effect on state or results.
- `FileReader`, `readAsDataURL` and the reset of the file input are left out.
  `LoadImage` takes the data URI the reader produced.
- `handleSubmit` is left out; it only forwards `formData` to `handleGenerateBanner`.
  So are the JSX rendering, `BannerDisplay` and the UI components.
- Overlapping generation requests are not modelled. `HandleGenerateBanner` runs one
  request from start to settlement, and the intermediate loading state is the
  postcondition of `Begin`.
- The base64 payload is never decoded or validated, as in the source.
- GeminiService.GenerateBanner and AppState.App.HandleGenerateBanner take the prompt
  sentences as a parameter. The deployed value is `PromptBuilder.PT_BR`, which only
  `PromptBuilder.BuildPrompt` uses.
- BannerFormState.WithField covers the eleven string inputs wired to `handleChange`.
  `productImage` and `additionalElements` are changed only by their own handlers.
- The service messages are written as lists of phrases joined by
  `ServiceMessages.Text`. The joined text is the source's message.
- The service's error handling, as the source writes it:
  - the refusal error wraps the model's text in a fixed sentence and quotes
    (services/geminiService.ts:100);
  - any other `Error` is rethrown unchanged (services/geminiService.ts:111);
  - a thrown value that is not an `Error` becomes the communication-failure message
    (services/geminiService.ts:113);
  - the malformed-image error is thrown inside the `try` (services/geminiService.ts:67),
    so it passes through the catch block; the missing-key error is thrown before it
    (services/geminiService.ts:55) and is never reclassified.
