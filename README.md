# Generation handler of the advertisement-image composer

This project models the only piece of logic in the composer's front end:
the click handler `handleGenerateImage` in `App.tsx` and the string step of
its `fileToBase64` helper. The user uploads a model photo and a product
photo and picks four descriptive options. The handler then does five things:

1. It refuses to start without both photos.
2. It clears the previous result and error.
3. It reads both files as data URLs and keeps each URL's base64 payload.
4. It fills a fixed Vietnamese prompt template, with a default phrase for every empty option.
5. It sends `[model image, product image, prompt]` to the hosted image model.

Finally it shows the first returned part that carries inline data as a `data:` URL.
Otherwise it shows an error message.

Modules:

- `Wrappers`: `Option`, standing for JavaScript's `undefined` and React's `null`.
- `JsStrings`: `String.prototype.split` with a one-character separator, its inverse `join`, and the evaluation of a template literal. Lemmas place every literal chunk and every substituted value in the result.
- `DataUrls`: `DataUrl` builds `data:<mime>;base64,<data>`. `Base64Payload` is `result.split(',')[1]`.
- `Prompt`: the option set, the four default phrases, the template and `ComposePrompt`.
- `GenAi`: the request and response shapes, `BuildRequest`, and `ResponseParts`. `ResponseParts` is `candidates?.[0]?.content?.parts ?? []`.
- `Interpreter`: `FirstImage` is the first-inline-part scan. `Interpret` turns a response into an image or a no-image error.
- `Generator`: the class `App`. Its fields mirror the component state. Its methods are:
  - `Begin`: the guard and the reset.
  - `TryBlock`: the `try` body, with the `for` loop over the response parts.
  - `Complete`: the `try`/`catch`/`finally`.
  - `Generate`: the whole handler.
  - `Click`: the button, disabled while loading or while a photo is missing.

The awaited steps are inputs, not executed. There are four of them:

- whether `new GoogleGenAI(...)` returns or throws (`ClientSetup`);
- what each of the two file reads resolves to, a data URL string or a rejection (`Awaited<string>`);
- what the model call resolves to, a response or a rejection (`Awaited<Response>`).

A thrown error's `message` may be `undefined`. This is the case for the event that a failed `FileReader` rejects with.
The template literal then renders it as `undefined`, and the model does the same.

Behaviour of the code worth noting:

- The no-image error is the fixed prefix "Không thể tạo ảnh. Phản hồi từ AI: " followed by the response text. It is not the bare text.
- A failed file read is reported through the same `catch` as an API error, with the "Đã xảy ra lỗi: " prefix.
- The handler does not check `isLoading` itself. Only one attempt runs at a time because the button is disabled (App.tsx:172). `Click` models that.
- When the guard fails, only `error` changes. A previous image stays in place.
- All messages and default phrases are the Vietnamese literals of the code.

## Model

| member | source | states |
|---|---|---|
| JsStrings.Split | App.tsx:23 | `split` yields at least one piece, no piece holds the separator, and joining the pieces gives back the input |
| JsStrings.SplitJoin | App.tsx:23 | splitting a join of separator-free pieces gives back exactly those pieces |
| JsStrings.ChunkAt | App.tsx:63-72 | each literal chunk of a template literal appears verbatim in the result, right before its substitution; the last chunk ends the result |
| JsStrings.ValueAt | App.tsx:63-72 | each substituted value appears verbatim in the result at its slot's position |
| DataUrls.PayloadOfJoin | App.tsx:23 | `split(',')[1]` is the text between the first comma and the next comma or the end, and `undefined` when there is no comma |
| DataUrls.NoCommaNoPayload | App.tsx:23 | a reader result without a comma gives an `undefined` payload |
| DataUrls.PayloadOfDataUrl | App.tsx:23 | stripping the prefix of `data:<mime>;base64,<data>` gives back `<data>` when neither part holds a comma |
| Prompt.PromptSlot | App.tsx:68-71 | each of the four slots holds the user's option verbatim when it is non-empty, and that slot's default phrase when it is empty, right after the slot's label |
| Prompt.PromptOpening | App.tsx:63-67 | the prompt always opens with the fixed text saying that the model and the product must match the two input images |
| Prompt.PromptClosing | App.tsx:72 | the prompt always ends with the instruction to return an image file and no text |
| Prompt.EmptyMeansDefault | App.tsx:68-71 | leaving an option empty gives the same prompt as choosing its default phrase; all-empty options give the all-defaults prompt |
| GenAi.ResponseParts | App.tsx:101 | the parts scanned are those of the first candidate; they are empty when the candidates, the first candidate, its content or its parts are missing |
| Interpreter.FirstImageAt | App.tsx:100-109 | the first part with inline data gives the data URL `data:<mime>;base64,<data>`; earlier parts without inline data are skipped |
| Interpreter.NoFirstImage | App.tsx:100-111 | the scan finds no image exactly when no part has inline data |
| Interpreter.LaterPartsIgnored | App.tsx:105-107 | once a part with inline data is found, appending more parts does not change the result |
| Interpreter.InterpretFails | App.tsx:111-115 | a response gives an error exactly when no part has inline data; the error is the fixed prefix followed by the response text, or by the fixed phrase when that text is empty or absent |
| Generator.RequestCarriesUploads | App.tsx:60-98 | when the client is created and both reads return data URLs, the request asks the image model for image and text output, with parts that are exactly [model image, product image, prompt]; each image part carries its file's MIME type and its reader's base64 payload |
| Generator.AttemptOutcome | App.tsx:57-119 | an attempt shows an image exactly when no awaited step throws and some response part has inline data, and the image is the data URL of the first such part; otherwise the first step that throws, in the order client, model read, product read, call, gives the error "Đã xảy ra lỗi: " followed by its message, or by "undefined" when the message is undefined |
| Generator.App.constructor | App.tsx:31-44 | the initial state: no photos, empty options, not loading, no image, no error |
| Generator.App.Begin | App.tsx:47-55 | without both photos only `error` changes, to the fixed upload message; otherwise loading is on, the loader text is set, and error and image are cleared, so the button is disabled |
| Generator.App.TryBlock | App.tsx:57-115 | the request sent and the first step that throws follow the handler's order; without a throw, the image is the first inline part's data URL, or else the error is the no-image message |
| Generator.App.Complete | App.tsx:57-122 | after the `try`/`catch`/`finally`, loading is off and the image and error are those of the attempt's result; exactly one of them is set |
| Generator.App.Generate | App.tsx:46-123 | the whole handler: the guard's outcome, or the request sent and the final state as a function of the awaited steps' outcomes |
| Generator.App.Click | App.tsx:170-172 | a click on the disabled button (loading, or a photo missing) changes nothing and sends nothing; an enabled click runs the handler: the request sent is the attempt's request, loading ends off, the loader text is set, and the image and error are exactly those of the attempt's result, one of them set |

## Left out

- The `GoogleGenAI` client and `generateContent` are not modelled. They are a foreign library and a network call. Their outcomes are inputs.
- `FileReader`, the promise around it and base64 encoding are browser I/O. A read is an input: the data URL it yields, or a rejection. The base64 round trip of the file's bytes is therefore not stated.
- React hooks, `useCallback` closures and re-rendering are not modelled. The handler reads the photos and options of the render it was created in. The model reads the current fields, which are the same values because each call runs to completion. State changes made by the user while a call is awaited are not modelled.
- JSX rendering, `ImageUploader`, `OptionSelector`, `Header` and `Loader` are not modelled. They are presentational markup and browser APIs (drag and drop, object URLs).
- The `console.error` logging has no effect on the state and is not modelled.
- `vite.config.ts` is build configuration and is not modelled.
- Returned inline data: the client library's types allow an undefined `mimeType` or `data` in a returned part. The model takes both as strings.
