/** The generation client of services/geminiService.ts: for each of its four
    operations, the fixed request it sends and the deterministic step that
    validates or selects from the parsed response.

    The SDK itself is a parameter (`Backend`): a total function from each
    request to either the response the service gave or the error the call
    rejected with. A transport failure, a rejected request and a body that
    `JSON.parse` cannot read are all rejections of that call. */
module Gemini {
  import opened Wrappers

  // ---------------------------------------------------------------------------
  // Domain values (types.ts)
  // ---------------------------------------------------------------------------

  /** A value produced by `JSON.parse`. Numbers are kept as reals; only whether
      one is zero matters to the code modelled here. */
  datatype Json =
    | JNull
    | JBool(b: bool)
    | JNumber(n: real)
    | JString(s: string)
    | JArray(items: seq<Json>)
    | JObject(fields: map<string, Json>)

  /** `TaggedPrompt` of types.ts:13-16. */
  datatype TaggedPrompt = TaggedPrompt(tag: string, prompt: string)

  /** `GeneratedImage` of types.ts:7-11. The tags are whatever array the tag
      call returned: their elements are never checked to be strings, so they
      are kept as JSON values. */
  datatype GeneratedImage = GeneratedImage(base64: string, mimeType: string, tags: Option<seq<Json>>)

  /** Why a service operation rejected. */
  datatype ServiceError =
    | Transport        // the SDK call itself rejected
    | SyntaxError      // `JSON.parse` of the response text threw
    | TypeError        // a property read on `null` or `undefined` threw
    | MalformedPrompts // "Failed to parse valid tagged prompts from the API response."
    | NoImages         // "Image generation failed or returned no images."
    | NoRefinedImage   // "Image refinement failed to return a new image."
    | MalformedTags    // "Failed to parse valid tags from the API response."

  // ---------------------------------------------------------------------------
  // Requests
  // ---------------------------------------------------------------------------

  const TextModel := "gemini-2.5-flash"
  const ImageModel := "imagen-4.0-generate-001"
  const EditModel := "gemini-2.5-flash-image-preview"
  const JsonMimeType := "application/json"
  const PngMimeType := "image/png"
  const WideAspectRatio := "16:9"

  /** The two system instructions, by role; their wording is not modelled. */
  datatype Instruction = ArtDirector | SeoManager

  /** A response schema without its descriptions. */
  datatype Schema =
    | SString
    | SArray(items: Schema)
    | SObject(properties: seq<(string, Schema)>, required: seq<string>)

  datatype Modality = IMAGE | TEXT

  /** Inline binary data: base64 text and its MIME type. */
  datatype Blob = Blob(data: string, mimeType: string)

  /** A part of a request's contents. */
  datatype RequestPart = TextPart(text: string) | InlineDataPart(inlineData: Blob)

  datatype ContentConfig = ContentConfig(
    systemInstruction: Option<Instruction>,
    responseMimeType: Option<string>,
    responseSchema: Option<Schema>,
    responseModalities: seq<Modality>)

  /** An `ai.models.generateContent` request. A bare string as `contents` is
      one text part. */
  datatype ContentRequest = ContentRequest(model: string, parts: seq<RequestPart>, config: ContentConfig)

  /** An `ai.models.generateImages` request. */
  datatype ImagesRequest = ImagesRequest(
    model: string, prompt: string, numberOfImages: nat, outputMimeType: string, aspectRatio: string)

  const PromptsSchema :=
    SObject([("prompts", SArray(SObject([("tag", SString), ("prompt", SString)], ["tag", "prompt"])))],
            ["prompts"])

  const TagsSchema := SObject([("tags", SArray(SString))], ["tags"])

  const ArticleContextLead := "Here is the article for context:\n\n"
  const TagsRequestTail := "Now, please generate the tags based on the system instruction."

  /** The request of `generatePromptsForArticle`. */
  function PromptsRequest(article: string): ContentRequest {
    ContentRequest(TextModel, [TextPart(article)],
      ContentConfig(Some(ArtDirector), Some(JsonMimeType), Some(PromptsSchema), []))
  }

  /** The request of `generateImageFromPrompt`. */
  function ImagesRequestFor(prompt: string): ImagesRequest {
    ImagesRequest(ImageModel, prompt, 1, PngMimeType, WideAspectRatio)
  }

  /** The request of `refineImage`. */
  function RefineRequest(base64Image: string, mimeType: string, prompt: string): ContentRequest {
    ContentRequest(EditModel, [InlineDataPart(Blob(base64Image, mimeType)), TextPart(prompt)],
      ContentConfig(None, None, None, [IMAGE, TEXT]))
  }

  /** The request of `generateTagsForImage`; it has no MIME type parameter. */
  function TagsRequest(base64Image: string, article: string): ContentRequest {
    ContentRequest(TextModel,
      [TextPart(ArticleContextLead + article), InlineDataPart(Blob(base64Image, PngMimeType)), TextPart(TagsRequestTail)],
      ContentConfig(Some(SeoManager), Some(JsonMimeType), Some(TagsSchema), []))
  }

  /** The inline images a request carries, in order: an image is listed
      exactly when some part carries it. */
  function InlineImages(parts: seq<RequestPart>): (r: seq<Blob>)
    ensures forall b :: b in r <==> InlineDataPart(b) in parts
  {
    if parts == [] then []
    else (if parts[0].InlineDataPart? then [parts[0].inlineData] else []) + InlineImages(parts[1..])
  }

  /** The prompt request sends the article as its only content and asks for JSON
      in the prompts schema. */
  lemma PromptsRequestShape(article: string)
    ensures var q := PromptsRequest(article);
      && q.model == "gemini-2.5-flash" && q.parts == [TextPart(article)]
      && q.config.responseMimeType == Some("application/json") && q.config.responseSchema == Some(PromptsSchema)
  {
  }

  /** Image generation asks for exactly one PNG at 16:9 for the given prompt. */
  lemma ImagesRequestShape(prompt: string)
    ensures var q := ImagesRequestFor(prompt);
      q.prompt == prompt && q.numberOfImages == 1 && q.outputMimeType == "image/png" && q.aspectRatio == "16:9"
  {
  }

  /** Refinement sends the current image first and the instruction second, and
      asks for an answer that may hold both an image and text. */
  lemma RefineRequestShape(base64Image: string, mimeType: string, prompt: string)
    ensures var q := RefineRequest(base64Image, mimeType, prompt);
      && |q.parts| == 2
      && q.parts[0] == InlineDataPart(Blob(base64Image, mimeType))
      && q.parts[1] == TextPart(prompt)
      && q.config.responseModalities == [IMAGE, TEXT]
  {
  }

  /** The tag request carries exactly one image, the given bytes, always labelled
      `image/png` whatever the image's real type; the article text comes before
      it. */
  lemma TagsRequestShape(base64Image: string, article: string)
    ensures var q := TagsRequest(base64Image, article);
      && InlineImages(q.parts) == [Blob(base64Image, "image/png")]
      && q.parts[0] == TextPart(ArticleContextLead + article)
      && q.parts[1].InlineDataPart?
  {
    var ps := TagsRequest(base64Image, article).parts;
    assert ps[1..][1..][1..] == [];
    assert InlineImages(ps[1..][1..]) == [];
    assert InlineImages(ps[1..]) == [Blob(base64Image, "image/png")];
  }

  // ---------------------------------------------------------------------------
  // Responses and the SDK
  // ---------------------------------------------------------------------------

  /** A part of a returned candidate: text, inline data, or both absent. */
  datatype ResponsePart = ResponsePart(text: Option<string>, inlineData: Option<Blob>)

  /** A candidate; `content` is `undefined` when the service sent none. */
  datatype Candidate = Candidate(content: Option<seq<ResponsePart>>)

  /** What `generateContent` resolves to: the candidates, and what
      `JSON.parse(response.text.trim())` yields (None when that throws). */
  datatype ContentResponse = ContentResponse(candidates: seq<Candidate>, parsedText: Option<Json>)

  /** The image payload of one generated image. */
  datatype Image = Image(imageBytes: string, mimeType: string)

  datatype GeneratedImageEntry = GeneratedImageEntry(image: Option<Image>)

  /** What `generateImages` resolves to; the list may be absent. */
  datatype ImagesResponse = ImagesResponse(generatedImages: Option<seq<GeneratedImageEntry>>)

  /** The external service: what each request resolves to or rejects with. */
  datatype Backend = Backend(
    generateContent: ContentRequest -> Result<ContentResponse, ServiceError>,
    generateImages: ImagesRequest -> Result<ImagesResponse, ServiceError>)

  // ---------------------------------------------------------------------------
  // JavaScript property access on parsed JSON
  // ---------------------------------------------------------------------------

  /** JavaScript truthiness: `null`, `false`, `0` and `""` are falsy. */
  predicate Truthy(v: Json) {
    match v
    case JNull => false
    case JBool(b) => b
    case JNumber(n) => n != 0.0
    case JString(s) => s != ""
    case _ => true
  }

  /** `v.key` on a value that is not `null`: an own property of an object, and
      `undefined` (None) otherwise. The keys read here ("prompts", "tags",
      "tag", "prompt") are not properties of strings, arrays or prototypes. */
  function Property(v: Json, key: string): Option<Json> {
    match v
    case JObject(fields) => if key in fields then Some(fields[key]) else None
    case _ => None
  }

  /** `result && Array.isArray(result[key])`: the elements when it holds. */
  function ArrayAt(result: Json, key: string): Option<seq<Json>> {
    if !Truthy(result) then None
    else match Property(result, key)
      case Some(JArray(items)) => Some(items)
      case _ => None
  }

  /** `typeof p.tag === 'string' && typeof p.prompt === 'string'` for a `p`
      that is not `null`. */
  predicate IsTaggedPromptJson(p: Json) {
    && Property(p, "tag").Some? && Property(p, "tag").value.JString?
    && Property(p, "prompt").Some? && Property(p, "prompt").value.JString?
  }

  function AsTaggedPrompt(p: Json): TaggedPrompt
    requires IsTaggedPromptJson(p)
  {
    TaggedPrompt(Property(p, "tag").value.s, Property(p, "prompt").value.s)
  }

  // ---------------------------------------------------------------------------
  // generatePromptsForArticle
  // ---------------------------------------------------------------------------

  /** The `every` check of the prompt array, element by element: it stops at the
      first element that fails, which is a thrown TypeError when that element is
      `null` (reading `null.tag`) and the "failed to parse" error otherwise. When
      every element passes, the array is returned as it is. */
  function ValidatePrompts(items: seq<Json>): (r: Result<seq<TaggedPrompt>, ServiceError>)
    ensures r.Ok? <==> forall i :: 0 <= i < |items| ==> IsTaggedPromptJson(items[i])
    ensures r.Ok? ==> |r.value| == |items|
                      && forall i :: 0 <= i < |items| ==> r.value[i] == AsTaggedPrompt(items[i])
    ensures r.Err? ==> exists i :: 0 <= i < |items| && !IsTaggedPromptJson(items[i])
                                   && (forall j :: 0 <= j < i ==> IsTaggedPromptJson(items[j]))
                                   && r.error == (if items[i] == JNull then TypeError else MalformedPrompts)
  {
    if items == [] then Ok([])
    else if items[0] == JNull then Err(TypeError)
    else if !IsTaggedPromptJson(items[0]) then Err(MalformedPrompts)
    else match ValidatePrompts(items[1..])
      case Ok(rest) => Ok([AsTaggedPrompt(items[0])] + rest)
      case Err(e) =>
        assert forall i :: 1 <= i < |items| ==> items[i] == items[1..][i - 1];
        Err(e)
  }

  /** The shaping step of `generatePromptsForArticle`, on the parsed body. */
  function PromptsFromJson(result: Json): Result<seq<TaggedPrompt>, ServiceError> {
    match ArrayAt(result, "prompts")
    case None => Err(MalformedPrompts)
    case Some(items) => ValidatePrompts(items)
  }

  function PromptsFromResponse(response: ContentResponse): Result<seq<TaggedPrompt>, ServiceError> {
    match response.parsedText
    case None => Err(SyntaxError)
    case Some(result) => PromptsFromJson(result)
  }

  /** `generatePromptsForArticle(article)`: a rejected call comes back as it
      is; otherwise the answer is accepted exactly when its text parses to a
      truthy value whose `prompts` is an array of well-formed elements, and
      those elements come back in order. */
  function GeneratePromptsForArticle(article: string, backend: Backend): (r: Result<seq<TaggedPrompt>, ServiceError>)
    ensures backend.generateContent(PromptsRequest(article)).Err? ==>
      r == Err(backend.generateContent(PromptsRequest(article)).error)
    ensures r.Ok? <==>
      var call := backend.generateContent(PromptsRequest(article));
      && call.Ok? && call.value.parsedText.Some?
      && ArrayAt(call.value.parsedText.value, "prompts").Some?
      && forall i :: 0 <= i < |ArrayAt(call.value.parsedText.value, "prompts").value| ==>
           IsTaggedPromptJson(ArrayAt(call.value.parsedText.value, "prompts").value[i])
    ensures r.Ok? ==>
      var items := ArrayAt(backend.generateContent(PromptsRequest(article)).value.parsedText.value, "prompts").value;
      |r.value| == |items| && forall i :: 0 <= i < |items| ==> r.value[i] == AsTaggedPrompt(items[i])
  {
    match backend.generateContent(PromptsRequest(article))
    case Err(e) => Err(e)
    case Ok(response) => PromptsFromResponse(response)
  }

  /** The prompt response is accepted exactly when `prompts` is an array whose
      every element has a string `tag` and a string `prompt`; the accepted array
      comes back with the same length, order and elements. */
  lemma PromptsAcceptedIffWellFormed(result: Json)
    ensures PromptsFromJson(result).Ok? <==>
      ArrayAt(result, "prompts").Some?
      && forall i :: 0 <= i < |ArrayAt(result, "prompts").value| ==> IsTaggedPromptJson(ArrayAt(result, "prompts").value[i])
    ensures PromptsFromJson(result).Ok? ==>
      var items := ArrayAt(result, "prompts").value;
      var ps := PromptsFromJson(result).value;
      |ps| == |items| && forall i :: 0 <= i < |items| ==> ps[i] == AsTaggedPrompt(items[i])
  {
  }

  /** All or nothing: one bad element rejects the whole response, whatever the
      others are. */
  lemma OneBadPromptRejectsAll(items: seq<Json>, k: nat)
    requires k < |items| && !IsTaggedPromptJson(items[k])
    ensures PromptsFromJson(JObject(map["prompts" := JArray(items)])).Err?
  {
  }

  /** Neither the count of ten nor non-empty strings is checked: an empty array
      passes, and so does a single prompt with empty strings. */
  lemma PromptsCountAndContentUnchecked()
    ensures PromptsFromJson(JObject(map["prompts" := JArray([])])) == Ok([])
    ensures PromptsFromJson(JObject(map["prompts" := JArray([JObject(map["tag" := JString(""), "prompt" := JString("")])])]))
            == Ok([TaggedPrompt("", "")])
  {
    var p := JObject(map["tag" := JString(""), "prompt" := JString("")]);
    assert Property(p, "tag") == Some(JString("")) && Property(p, "prompt") == Some(JString(""));
    assert IsTaggedPromptJson(p) && AsTaggedPrompt(p) == TaggedPrompt("", "");
    var r := ValidatePrompts([p]);
    assert r.Ok? && |r.value| == 1 && r.value[0] == TaggedPrompt("", "");
    assert r.value == [TaggedPrompt("", "")];
    assert ArrayAt(JObject(map["prompts" := JArray([p])]), "prompts") == Some([p]);
  }

  // ---------------------------------------------------------------------------
  // generateImageFromPrompt
  // ---------------------------------------------------------------------------

  /** The shaping step of `generateImageFromPrompt`: the first generated image's
      bytes and type, with no tags. An absent or empty list is the "no images"
      error; a first entry without an image throws on `imageData.imageBytes`. */
  function ImageFromResponse(response: ImagesResponse): (r: Result<GeneratedImage, ServiceError>)
    ensures r.Ok? <==> response.generatedImages.Some? && |response.generatedImages.value| > 0
                       && response.generatedImages.value[0].image.Some?
    ensures r.Ok? ==> var first := response.generatedImages.value[0].image.value;
                      r.value == GeneratedImage(first.imageBytes, first.mimeType, None)
    ensures r == Err(NoImages) <==> response.generatedImages.None? || response.generatedImages.value == []
  {
    match response.generatedImages
    case None => Err(NoImages)
    case Some(entries) =>
      if |entries| == 0 then Err(NoImages)
      else match entries[0].image
        case None => Err(TypeError)
        case Some(image) => Ok(GeneratedImage(image.imageBytes, image.mimeType, None))
  }

  /** `generateImageFromPrompt(prompt)`: a rejected call comes back as it is;
      otherwise the result is the first generated image, untagged, and exists
      exactly when the list has a first entry holding an image. */
  function GenerateImageFromPrompt(prompt: string, backend: Backend): (r: Result<GeneratedImage, ServiceError>)
    ensures backend.generateImages(ImagesRequestFor(prompt)).Err? ==>
      r == Err(backend.generateImages(ImagesRequestFor(prompt)).error)
    ensures r.Ok? <==>
      var call := backend.generateImages(ImagesRequestFor(prompt));
      && call.Ok? && call.value.generatedImages.Some? && |call.value.generatedImages.value| > 0
      && call.value.generatedImages.value[0].image.Some?
    ensures r.Ok? ==>
      var first := backend.generateImages(ImagesRequestFor(prompt)).value.generatedImages.value[0].image.value;
      r.value == GeneratedImage(first.imageBytes, first.mimeType, None)
  {
    match backend.generateImages(ImagesRequestFor(prompt))
    case Err(e) => Err(e)
    case Ok(response) => ImageFromResponse(response)
  }

  // ---------------------------------------------------------------------------
  // refineImage
  // ---------------------------------------------------------------------------

  /** The `for ... of` search of `refineImage`: the index of the first part that
      carries inline data, if any. */
  function FirstInlineData(parts: seq<ResponsePart>): (r: Option<nat>)
    ensures r.None? <==> forall j :: 0 <= j < |parts| ==> parts[j].inlineData.None?
    ensures r.Some? ==> r.value < |parts| && parts[r.value].inlineData.Some?
                        && forall j :: 0 <= j < r.value ==> parts[j].inlineData.None?
  {
    if parts == [] then None
    else if parts[0].inlineData.Some? then Some(0)
    else match FirstInlineData(parts[1..])
      case None => None
      case Some(k) => Some(k + 1)
  }

  /** The shaping step of `refineImage`: reading `candidates[0].content.parts`
      throws when there is no first candidate or it has no content; otherwise
      the first part with inline data is the refined image, and none is the
      "failed to return a new image" error. */
  function RefinedImageFromResponse(response: ContentResponse): Result<GeneratedImage, ServiceError> {
    if |response.candidates| == 0 then Err(TypeError)
    else match response.candidates[0].content
      case None => Err(TypeError)
      case Some(parts) =>
        match FirstInlineData(parts)
        case None => Err(NoRefinedImage)
        case Some(k) => Ok(GeneratedImage(parts[k].inlineData.value.data, parts[k].inlineData.value.mimeType, None))
  }

  /** `refineImage(base64Image, mimeType, prompt)`: a rejected call comes back
      as it is; otherwise the result exists exactly when the first candidate's
      content has a part with inline data, and it is that part's image,
      untagged. */
  function RefineImage(base64Image: string, mimeType: string, prompt: string, backend: Backend): (r: Result<GeneratedImage, ServiceError>)
    ensures backend.generateContent(RefineRequest(base64Image, mimeType, prompt)).Err? ==>
      r == Err(backend.generateContent(RefineRequest(base64Image, mimeType, prompt)).error)
    ensures r.Ok? <==>
      var call := backend.generateContent(RefineRequest(base64Image, mimeType, prompt));
      && call.Ok? && |call.value.candidates| > 0 && call.value.candidates[0].content.Some?
      && exists j :: 0 <= j < |call.value.candidates[0].content.value|
                     && call.value.candidates[0].content.value[j].inlineData.Some?
    ensures r.Ok? ==>
      var parts := backend.generateContent(RefineRequest(base64Image, mimeType, prompt)).value.candidates[0].content.value;
      && r.value.tags.None?
      && exists k :: 0 <= k < |parts| && (forall j :: 0 <= j < k ==> parts[j].inlineData.None?)
                     && parts[k].inlineData == Some(Blob(r.value.base64, r.value.mimeType))
  {
    match backend.generateContent(RefineRequest(base64Image, mimeType, prompt))
    case Err(e) => Err(e)
    case Ok(response) => RefinedImageFromResponse(response)
  }

  /** Refinement reads the first candidate's parts, and throws when there is no
      candidate or it has no content. Among the parts it returns the first one
      carrying inline data, skipping text parts before it and ignoring any image
      after it, and fails exactly when no part carries inline data. The result
      has no tags. */
  lemma RefinedIsFirstInlineData(response: ContentResponse)
    ensures |response.candidates| == 0 || response.candidates[0].content.None? ==>
      RefinedImageFromResponse(response) == Err(TypeError)
    ensures |response.candidates| > 0 && response.candidates[0].content.Some? ==>
      var parts := response.candidates[0].content.value;
      var r := RefinedImageFromResponse(response);
      && (r.Ok? <==> exists j :: 0 <= j < |parts| && parts[j].inlineData.Some?)
      && (r.Err? ==> r.error == NoRefinedImage)
      && (r.Ok? ==> exists k :: 0 <= k < |parts|
                     && (forall j :: 0 <= j < k ==> parts[j].inlineData.None?)
                     && parts[k].inlineData == Some(Blob(r.value.base64, r.value.mimeType))
                     && r.value.tags.None?)
  {
  }

  /** A text part ahead of two images: the first image wins. */
  lemma RefineSkipsTextAndLaterImages(a: Blob, b: Blob)
    ensures RefinedImageFromResponse(ContentResponse([Candidate(Some([
              ResponsePart(Some("Here it is"), None), ResponsePart(None, Some(a)), ResponsePart(None, Some(b))]))], None))
            == Ok(GeneratedImage(a.data, a.mimeType, None))
  {
    var parts := [ResponsePart(Some("Here it is"), None), ResponsePart(None, Some(a)), ResponsePart(None, Some(b))];
    assert FirstInlineData(parts[1..]) == Some(0);
  }

  // ---------------------------------------------------------------------------
  // generateTagsForImage
  // ---------------------------------------------------------------------------

  /** The shaping step of `generateTagsForImage`, on the parsed body. */
  function TagsFromJson(result: Json): (r: Result<seq<Json>, ServiceError>)
    ensures r.Ok? <==> Truthy(result) && Property(result, "tags").Some? && Property(result, "tags").value.JArray?
    ensures r.Ok? ==> JArray(r.value) == Property(result, "tags").value
    ensures r.Err? ==> r.error == MalformedTags
  {
    match ArrayAt(result, "tags")
    case None => Err(MalformedTags)
    case Some(items) => Ok(items)
  }

  function TagsFromResponse(response: ContentResponse): Result<seq<Json>, ServiceError> {
    match response.parsedText
    case None => Err(SyntaxError)
    case Some(result) => TagsFromJson(result)
  }

  /** `generateTagsForImage(base64Image, article)`: a rejected call comes back
      as it is; otherwise the answer is accepted exactly when its text parses to
      a truthy value whose `tags` is an array, and that array comes back. */
  function GenerateTagsForImage(base64Image: string, article: string, backend: Backend): (r: Result<seq<Json>, ServiceError>)
    ensures backend.generateContent(TagsRequest(base64Image, article)).Err? ==>
      r == Err(backend.generateContent(TagsRequest(base64Image, article)).error)
    ensures r.Ok? <==>
      var call := backend.generateContent(TagsRequest(base64Image, article));
      && call.Ok? && call.value.parsedText.Some? && Truthy(call.value.parsedText.value)
      && Property(call.value.parsedText.value, "tags").Some?
      && Property(call.value.parsedText.value, "tags").value.JArray?
    ensures r.Ok? ==>
      JArray(r.value) == Property(backend.generateContent(TagsRequest(base64Image, article)).value.parsedText.value, "tags").value
  {
    match backend.generateContent(TagsRequest(base64Image, article))
    case Err(e) => Err(e)
    case Ok(response) => TagsFromResponse(response)
  }

  /** Neither the element types nor the five-to-eight count is checked: an
      empty array, and an array of a number and `null`, are accepted as they
      are. */
  lemma TagsElementsUnchecked()
    ensures TagsFromJson(JObject(map["tags" := JArray([])])) == Ok([])
    ensures TagsFromJson(JObject(map["tags" := JArray([JNumber(1.0), JNull])])) == Ok([JNumber(1.0), JNull])
  {
  }

  // ---------------------------------------------------------------------------
  // Failures of the call itself
  // ---------------------------------------------------------------------------

  /** None of the four operations retries or hides a failure of the SDK call.
      The first four clauses collect, in one place, the pass-through clause
      each operation already states; the last two add that a response text
      that does not parse as JSON rejects the two JSON operations. */
  lemma RejectionsPassThrough(article: string, prompt: string, base64Image: string, mimeType: string, backend: Backend)
    ensures backend.generateContent(PromptsRequest(article)).Err? ==>
      GeneratePromptsForArticle(article, backend) == Err(backend.generateContent(PromptsRequest(article)).error)
    ensures backend.generateImages(ImagesRequestFor(prompt)).Err? ==>
      GenerateImageFromPrompt(prompt, backend) == Err(backend.generateImages(ImagesRequestFor(prompt)).error)
    ensures backend.generateContent(RefineRequest(base64Image, mimeType, prompt)).Err? ==>
      RefineImage(base64Image, mimeType, prompt, backend)
      == Err(backend.generateContent(RefineRequest(base64Image, mimeType, prompt)).error)
    ensures backend.generateContent(TagsRequest(base64Image, article)).Err? ==>
      GenerateTagsForImage(base64Image, article, backend)
      == Err(backend.generateContent(TagsRequest(base64Image, article)).error)
    ensures forall c :: PromptsFromResponse(ContentResponse(c, None)) == Err(SyntaxError)
    ensures forall c :: TagsFromResponse(ContentResponse(c, None)) == Err(SyntaxError)
  {
  }
}
