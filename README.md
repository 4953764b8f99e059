# Illustration Assistant: a verified model of the workflow controller and the generation client

Illustration Assistant turns an article into an illustration. The user pastes an article. The application
asks a generative AI service for ten style-tagged image prompts. The user picks one, and an image is
generated and tagged with keywords. The user can then refine that image with free text or with a style
shortcut. Each refined image is tagged again.

This project models the two pieces of the application that hold logic:

- **The workflow controller** (`App.tsx`). It is a three-stage machine (`ARTICLE_INPUT`,
  `PROMPT_SELECTION`, `IMAGE_DISPLAY`) over eight session fields. Each user action is one handler. A
  handler checks its guard, sets the busy flag, calls the service, then either commits the result or
  records a fixed error message, and clears the busy flag on every path. In module `Workflow`:
  - `Session` holds the eight fields as one value.
  - Each handler is a function `After...` of the old session and the backend. It returns the new
    session and the service calls the handler made, in order.
  - Class `App` holds the same fields as mutable state. Each of its methods performs the handler's
    setter calls in order and is proved to end in the state the matching `After...` function gives.
  - `Intent`, `Enabled` and `Next` model `renderContent`: which handler each stage's view wires to
    which control, and when that control is enabled.
  - `Valid` is the invariant that every reachable session satisfies.
- **The generation client** (`services/geminiService.ts`). There are four operations. Each sends a fixed
  request to the SDK and then validates the response or selects from it. Module `Gemini` models:
  - each request as a value;
  - the already-parsed response as a datatype (`Json`, `ContentResponse`, `ImagesResponse`);
  - each validation or selection step as a pure function that returns `Ok` or `Err`.

The SDK is a parameter, `Backend`. It is a pair of total functions from a request to either a response
or a rejection. A handler sends each request at most once, so an arbitrary `Backend` covers every
outcome the service can produce for that action. Module `Text` models JavaScript's `String.prototype.trim`,
which both blank-input guards use.

The code checks less than its response schemas and system instructions ask for (ten prompts; five to
eight string tags), and the model follows the code:

- The prompt response is accepted with any number of elements, including none. Empty `tag` or `prompt`
  strings are accepted too. So a successful submission can reach prompt selection with no prompts
  (`SubmitMayYieldNoPrompts`).
- The tag response is accepted whenever `tags` is an array. Its elements are not checked, so
  `GeneratedImage.tags` holds JSON values rather than strings.

`handleStartOver` (App.tsx:107-115) sets seven fields back to their initial values: stage, article,
prompts, image, refinement prompt, error and loading flag. It does not set `loadingMessage`, so the last
loading message stays in the session.

## Model

| member | source | states |
|---|---|---|
| `Text.TrimStart` | App.tsx:27 | the result is the suffix of the input that starts at its first non-whitespace character; everything cut off is whitespace |
| `Text.TrimEnd` | App.tsx:72 | the result is the prefix of the input that ends at its last non-whitespace character; everything cut off is whitespace |
| `Text.Trim` | App.tsx:27 | `s.trim()` is a middle slice of `s` with only whitespace cut off on either side; it is empty, which is the guard `!s.trim()`, exactly when every character of `s` is whitespace, and otherwise begins and ends with non-whitespace |
| `Gemini.PromptsRequestShape` | services/geminiService.ts:13-44 | about `PromptsRequest`: the prompt request uses gemini-2.5-flash, sends the article as its only content, and asks for JSON in the prompts schema |
| `Gemini.ValidatePrompts` | services/geminiService.ts:51-53 | the `every` check accepts exactly when every element has a string `tag` and a string `prompt`, and then returns every element in order; otherwise it fails at the first bad element, with a TypeError when that element is `null` and the parse error otherwise |
| `Gemini.GeneratePromptsForArticle` | services/geminiService.ts:10-57 | a rejected call comes back unchanged; otherwise the result is accepted exactly when the answer parses to a truthy value whose `prompts` is an array of elements with string `tag` and `prompt`, and it is those elements in order |
| `Gemini.PromptsAcceptedIffWellFormed` | services/geminiService.ts:49-56 | about `PromptsFromJson`, with `ArrayAt` for `result && Array.isArray(result.prompts)`: the prompt response is accepted if and only if `prompts` is an array of well-formed elements; the accepted array has the same length, order and elements |
| `Gemini.OneBadPromptRejectsAll` | services/geminiService.ts:51 | one bad element rejects the whole response; nothing is filtered |
| `Gemini.PromptsCountAndContentUnchecked` | services/geminiService.ts:49-53 | an empty array is accepted, and so are empty strings: neither the count of ten nor non-emptiness is checked |
| `Gemini.ImagesRequestShape` | services/geminiService.ts:60-68 | about `ImagesRequestFor`: image generation requests exactly one `image/png` image at aspect ratio 16:9 for the given prompt |
| `Gemini.GenerateImageFromPrompt` | services/geminiService.ts:59-79 | a rejected call comes back unchanged; otherwise the result exists exactly when the list has a first entry with an image, and it is that image's bytes and MIME type, untagged |
| `Gemini.ImageFromResponse` | services/geminiService.ts:70-78 | the result is the first generated image's bytes and MIME type with no tags; an absent or empty list is exactly the "no images" failure |
| `Gemini.RefineRequestShape` | services/geminiService.ts:82-100 | about `RefineRequest`: refinement sends the parts in the order [current image as inline data, instruction text] and asks for image and text modalities |
| `Gemini.FirstInlineData` | services/geminiService.ts:102-109 | the search finds the index of the first part with inline data, and finds none exactly when no part has inline data |
| `Gemini.RefineImage` | services/geminiService.ts:81-112 | a rejected call comes back unchanged; otherwise the result exists exactly when the first candidate's content has a part with inline data, and it is the first such part's image, untagged |
| `Gemini.RefinedIsFirstInlineData` | services/geminiService.ts:102-111 | about `RefinedImageFromResponse`: refinement throws without a first candidate or its content; otherwise it returns the first part carrying inline data, untagged, and fails with the "no new image" error exactly when no part carries inline data |
| `Gemini.RefineSkipsTextAndLaterImages` | services/geminiService.ts:102-109 | a text part before two images is skipped, and the first image wins |
| `Gemini.TagsRequestShape` | services/geminiService.ts:119-129 | about `TagsRequest` (with `InlineImages` listing a request's inline images): the tag request carries exactly one image, the given bytes, always labelled `image/png`, and the article text comes before it |
| `Gemini.GenerateTagsForImage` | services/geminiService.ts:114-158 | a rejected call comes back unchanged; otherwise the result is accepted exactly when the answer parses to a truthy value whose `tags` is an array, and it is that array unchanged |
| `Gemini.TagsFromJson` | services/geminiService.ts:153-157 | the tag response is accepted if and only if `tags` is an array, and that array is returned unchanged; anything else is the "failed to parse tags" error |
| `Gemini.TagsElementsUnchecked` | services/geminiService.ts:153-155 | empty arrays and non-string elements are accepted: neither the element type nor the 5 to 8 count is checked |
| `Gemini.RejectionsPassThrough` | services/geminiService.ts:46-47 | collects the pass-through clauses of the four operations in one place, and adds that unparseable response text rejects the two JSON operations (`PromptsFromResponse`, `TagsFromResponse`) |
| `Workflow.AfterError` | App.tsx:20-24 | the message is shown and loading ends; every other field is kept |
| `Workflow.AfterGeneratePrompts` | App.tsx:26-43 | a blank article only sets "Article content cannot be empty.", with no call; otherwise one prompt request is sent for the article, success stores the prompts verbatim, moves to prompt selection and leaves no error, failure keeps stage and prompts and sets the fixed message, loading ends false, and article, image and refinement prompt are untouched |
| `Workflow.AfterGenerateImage` | App.tsx:45-60 | the image request is sent first; the tag request follows only after an image came back and carries that image's bytes and the article; the step commits only if both succeed, making the new image, tagged from its own bytes, current and moving to image display; failure at either call keeps stage and image and sets the fixed message |
| `Workflow.RefinementAttempt` | App.tsx:62-68 | the refine request carries the current image and the instruction; a failed refine makes no further call and throws its error; after a successful refine exactly one tag request follows, for the refined image's bytes and the article, and a failed tag call throws its error; only if both succeed is the image replaced by the refined one, tagged from its own bytes, with the refinement prompt cleared; a throw at either call leaves image and refinement prompt exactly as before |
| `Workflow.AfterRefineImage` | App.tsx:71-86 | without an image or with a blank refinement prompt, only "Cannot refine without an image and a refinement prompt." is set and no call is made; otherwise the refinement runs with the prompt as typed, the stage never changes, and failure sets the fixed message |
| `Workflow.AfterRefineStyle` | App.tsx:88-104 | only an image is required; the call sends exactly "Regenerate the image in a <style> style, preserving the core subject matter." through the same refinement path, and failure sets the style failure message |
| `Workflow.AfterStartOver` | App.tsx:107-115 | every field returns to its initial value whatever the session held (stage, article, prompts, image, refinement prompt, error, loading), except the loading message, which is kept |
| `Workflow.AfterBackToPrompts` | App.tsx:117-123 | the image, refinement prompt, error and loading flag are cleared and the stage becomes prompt selection; article and prompts are kept |
| `Workflow.Enabled` | App.tsx:125-163 | the views' guards in one predicate, with `ViewOf` naming the view that holds each control; its contract reads them both ways: a control is enabled only when nothing is loading and its stage's view is the one rendered, with an image on the image stage, a non-blank article for submit (components/ArticleInput.tsx:32), a non-blank refinement prompt for refine (components/ImageGenerator.tsx:88), a listed prompt (components/PromptSelector.tsx:32-39) and a listed style (components/ImageGenerator.tsx:41-73); every other control on the rendered view is enabled whenever nothing is loading (components/ArticleInput.tsx:28, components/PromptSelector.tsx:72, components/ImageGenerator.tsx:84, 121), and the image view renders nothing without an image (components/ImageGenerator.tsx:38) |
| `Workflow.Next` | App.tsx:125-163 | every enabled action ends with loading cleared and moves only between adjacent stages or from the image back to prompt selection; only submit, select, refine and style call the service, at most twice; editing a text changes only that text |
| `Workflow.NextKeepsValid` | App.tsx:125-163 | every action whose control is shown and enabled keeps the invariant: not loading, an image exactly on the image stage and always tagged, no prompts on the article stage, a refinement prompt only on the image stage |
| `Workflow.RunKeepsValid` | App.tsx:125-163 | any sequence of user actions from a valid session ends in a valid session |
| `Workflow.ReachableIsValid` | App.tsx:10-18 | every session reachable from the initial one satisfies the invariant |
| `Workflow.FailureNeverOverwritesImage` | App.tsx:20-24 | an action that ends with an error on screen leaves the current image as it was |
| `Workflow.SubmitMayYieldNoPrompts` | App.tsx:35-37 | a service answering with an empty prompt array moves the session to prompt selection with no prompts and no error |
| `Workflow.BackToArticleIsStartOver` | App.tsx:144 | the Back button of prompt selection runs the full reset and makes no call |
| `Workflow.App.constructor` | App.tsx:10-18 | the session starts on the article stage with every field at its initial value and no call made |
| `Workflow.App.SetArticle` | App.tsx:131 | editing the article changes only the article |
| `Workflow.App.SetRefinementPrompt` | App.tsx:152 | editing the refinement prompt changes only the refinement prompt |
| `Workflow.App.HandleError` | App.tsx:20-24 | records the message and clears the loading flag |
| `Workflow.App.HandleGeneratePrompts` | App.tsx:26-43 | the setter sequence ends in the state and call log `AfterGeneratePrompts` gives |
| `Workflow.App.HandleGenerateImage` | App.tsx:45-60 | the setter sequence ends in the state and call log `AfterGenerateImage` gives |
| `Workflow.App.PerformImageRefinement` | App.tsx:62-68 | ends in the state and call log `RefinementAttempt` gives, and returns the error it threw |
| `Workflow.App.HandleRefineImage` | App.tsx:71-86 | the setter sequence ends in the state and call log `AfterRefineImage` gives |
| `Workflow.App.HandleRefineStyle` | App.tsx:88-104 | the setter sequence ends in the state and call log `AfterRefineStyle` gives |
| `Workflow.App.HandleStartOver` | App.tsx:107-115 | the setter sequence ends in the state `AfterStartOver` gives, with no call |
| `Workflow.App.HandleBackToPrompts` | App.tsx:117-123 | the setter sequence ends in the state `AfterBackToPrompts` gives, with no call |
| `Workflow.App.Dispatch` | App.tsx:125-163 | the handler behind an enabled control runs and keeps the invariant |

## Left out

- The three view components are left out except for their enabling guards, which become `Enabled`. Their
  layout, clipboard copying with its timed reset, and the download link are presentation only.
- The SDK calls, `JSON.parse` and the module-level `API_KEY` check are left out. They are network calls, a
  foreign library and environment input. Call outcomes are `Backend` results, and a parsed body is
  `ContentResponse.parsedText` (absent when parsing throws).
- The wording of the two system instructions is left out. So are the `description` strings of the response
  schemas. They are instructions to the model, and nothing checks them. Requests carry them by role only.
- Extra fields on a prompt object are not kept. The source returns the raw objects, and the model keeps
  only `tag` and `prompt`.
- A JSON object is a `map`, so a key occurs once (as after `JSON.parse`). Numbers are reals, and only
  whether one is zero is used.
- Async interleaving and React's batched `setState` are left out. Each handler is one atomic step over the
  state it read when it started. The controls are disabled while loading, so concurrent handlers do not
  occur.
- `console.error` logging is left out.
- Whether prompts are diverse and tags relevant is left out. That is model behaviour, not code.
- `Backend` answers a given request the same way each time. Within one action no request repeats, so this
  loses nothing per action. Across a `Run`, each step has its own backend.
