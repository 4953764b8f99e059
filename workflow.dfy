/** The workflow controller of App.tsx: three stages, eight session fields,
    and one handler per user action.

    Each handler runs as one atomic step over the state it read when it
    started. The outcome of every service call it makes comes from the
    `Backend` parameter, so a step is a function of the old session and the
    backend. The `After...` functions below are that specification; the class
    `App` holds the fields as mutable state, and each of its methods performs
    the handler's setter calls in order and is proved to end in the state the
    specification gives. */
module Workflow {
  import opened Wrappers
  import opened Text
  import opened Gemini

  /** `WorkflowState` of types.ts:1-5. */
  datatype WorkflowState = ARTICLE_INPUT | PROMPT_SELECTION | IMAGE_DISPLAY

  /** The eight `useState` fields, as one value. */
  datatype Session = Session(
    workflowState: WorkflowState,
    isLoading: bool,
    loadingMessage: string,
    error: Option<string>,
    article: string,
    prompts: seq<TaggedPrompt>,
    generatedImage: Option<GeneratedImage>,
    refinementPrompt: string)

  /** The initial value of every field. */
  const Initial := Session(ARTICLE_INPUT, false, "", None, "", [], None, "")

  /** A service call the controller made. */
  datatype Call = ContentCall(request: ContentRequest) | ImagesCall(imagesRequest: ImagesRequest)

  /** The state a handler leaves behind, and the calls it made, in order. */
  datatype Transition = Transition(after: Session, calls: seq<Call>)

  /** The state `performImageRefinement` leaves behind, the calls it made, and
      the error it threw, if any. */
  datatype Attempt = Attempt(after: Session, calls: seq<Call>, thrown: Option<ServiceError>)

  // User-facing error messages.
  const EmptyArticleMessage := "Article content cannot be empty."
  const PromptsFailedMessage := "Failed to generate prompts. Please check your API key and try again."
  const ImageFailedMessage := "Failed to generate the image. The model may have refused the request. Please try a different prompt."
  const RefineGuardMessage := "Cannot refine without an image and a refinement prompt."
  const RefineFailedMessage := "Failed to refine the image. Please try a different refinement prompt."
  const StyleGuardMessage := "Cannot refine a style without a base image."
  const StyleFailedMessage := "Failed to refine the image style. Please try again."

  // Loading messages.
  const AnalyzingMessage := "Analyzing article and generating prompt ideas..."
  const CreatingMessage := "Creating initial illustration..."
  const TaggingMessage := "Generating descriptive tags..."
  const UpdatingTagsMessage := "Updating descriptive tags..."
  const ApplyingEditsMessage := "Applying your edits to the illustration..."

  function ChangingStyleMessage(style: string): string {
    "Changing style to " + style + "..."
  }

  /** The instruction a style shortcut sends through the refinement path. */
  function StylePrompt(style: string): string {
    "Regenerate the image in a " + style + " style, preserving the core subject matter."
  }

  /** The style shortcuts the image view offers. */
  const RefineStyles := ["Photorealistic", "Illustration", "Abstract", "Painterly", "Comic Book", "Watercolor", "Pixel Art"]

  /** The image carries tags, and they are exactly what the tag service answers
      for this image's own bytes and the given article. */
  ghost predicate TaggedFromOwnBytes(image: GeneratedImage, article: string, backend: Backend) {
    image.tags.Some? && GenerateTagsForImage(image.base64, article, backend) == Ok(image.tags.value)
  }

  // ---------------------------------------------------------------------------
  // The handlers, as functions of the old session
  // ---------------------------------------------------------------------------

  /** `handleError`: record the message and stop loading. */
  function AfterError(s: Session, message: string): (t: Session)
    ensures t.error == Some(message) && !t.isLoading
    ensures t.(error := s.error, isLoading := s.isLoading) == s
  {
    s.(error := Some(message), isLoading := false)
  }

  /** `handleGeneratePrompts`. A blank article only sets the error: no call is
      made and nothing else changes. Otherwise exactly one prompt request is
      sent for the article; on success the prompts are stored as the service
      returned them and the stage moves to prompt selection, on failure stage
      and prompts stay and the fixed message is shown; loading ends either way.
      The article, image and refinement prompt are never touched. */
  function AfterGeneratePrompts(s: Session, backend: Backend): (t: Transition)
    ensures IsBlank(s.article) ==> t.calls == [] && t.after == s.(error := Some(EmptyArticleMessage))
    ensures !IsBlank(s.article) ==>
      && t.calls == [ContentCall(PromptsRequest(s.article))]
      && t.after == s.(workflowState := t.after.workflowState, prompts := t.after.prompts, error := t.after.error,
                       isLoading := false, loadingMessage := AnalyzingMessage)
      && match GeneratePromptsForArticle(s.article, backend)
         case Ok(suggested) =>
           t.after.prompts == suggested && t.after.workflowState == PROMPT_SELECTION && t.after.error == None
         case Err(_) =>
           t.after.prompts == s.prompts && t.after.workflowState == s.workflowState
           && t.after.error == Some(PromptsFailedMessage)
  {
    if IsBlank(s.article) then Transition(s.(error := Some(EmptyArticleMessage)), [])
    else
      var busy := s.(isLoading := true, loadingMessage := AnalyzingMessage, error := None);
      var settled := match GeneratePromptsForArticle(s.article, backend)
        case Ok(suggested) => busy.(prompts := suggested, workflowState := PROMPT_SELECTION)
        case Err(_) => AfterError(busy, PromptsFailedMessage);
      Transition(settled.(isLoading := false), [ContentCall(PromptsRequest(s.article))])
  }

  /** `handleGenerateImage`. The image request is always sent; the tag request
      follows only when an image came back, and it carries that image's bytes
      and the current article. The step commits only if both calls succeed:
      the new image, tagged from its own bytes, becomes current and the stage
      moves to image display. On failure at either call the stage and the
      current image stay and the fixed message is shown. Article, prompts and
      refinement prompt are never touched, and loading ends either way. */
  function AfterGenerateImage(s: Session, prompt: string, backend: Backend): (t: Transition)
    ensures t.after == s.(workflowState := t.after.workflowState, generatedImage := t.after.generatedImage,
                          error := t.after.error, isLoading := false, loadingMessage := t.after.loadingMessage)
    ensures |t.calls| >= 1 && t.calls[0] == ImagesCall(ImagesRequestFor(prompt))
    ensures GenerateImageFromPrompt(prompt, backend).Err? ==>
      && t.calls == [ImagesCall(ImagesRequestFor(prompt))]
      && t.after.workflowState == s.workflowState && t.after.generatedImage == s.generatedImage
      && t.after.error == Some(ImageFailedMessage)
    ensures GenerateImageFromPrompt(prompt, backend).Ok? ==>
      var image := GenerateImageFromPrompt(prompt, backend).value;
      && t.calls == [ImagesCall(ImagesRequestFor(prompt)), ContentCall(TagsRequest(image.base64, s.article))]
      && if GenerateTagsForImage(image.base64, s.article, backend).Ok? then
           && t.after.generatedImage.Some?
           && t.after.generatedImage.value.(tags := None) == image
           && TaggedFromOwnBytes(t.after.generatedImage.value, s.article, backend)
           && t.after.workflowState == IMAGE_DISPLAY && t.after.error == None
         else
           && t.after.workflowState == s.workflowState && t.after.generatedImage == s.generatedImage
           && t.after.error == Some(ImageFailedMessage)
  {
    var busy := s.(isLoading := true, loadingMessage := CreatingMessage, error := None);
    var imageCall := ImagesCall(ImagesRequestFor(prompt));
    match GenerateImageFromPrompt(prompt, backend)
    case Err(_) => Transition(AfterError(busy, ImageFailedMessage), [imageCall])
    case Ok(image) =>
      var tagging := busy.(loadingMessage := TaggingMessage);
      var calls := [imageCall, ContentCall(TagsRequest(image.base64, s.article))];
      match GenerateTagsForImage(image.base64, s.article, backend)
      case Err(_) => Transition(AfterError(tagging, ImageFailedMessage), calls)
      case Ok(tags) =>
        Transition(tagging.(generatedImage := Some(image.(tags := Some(tags))), workflowState := IMAGE_DISPLAY,
                            isLoading := false), calls)
  }

  /** `performImageRefinement`: refine `current` with `prompt`, then tag the
      refined image. Only on success of both calls does the refined image,
      tagged from its own bytes, replace the current one and the refinement
      prompt clear; a failure at either call throws and leaves the image and
      the refinement prompt exactly as they were. */
  function RefinementAttempt(s: Session, current: GeneratedImage, prompt: string, backend: Backend): (a: Attempt)
    ensures a.after == s.(loadingMessage := a.after.loadingMessage, generatedImage := a.after.generatedImage,
                          refinementPrompt := a.after.refinementPrompt)
    ensures |a.calls| >= 1 && a.calls[0] == ContentCall(RefineRequest(current.base64, current.mimeType, prompt))
    ensures a.thrown.Some? ==>
      a.after.generatedImage == s.generatedImage && a.after.refinementPrompt == s.refinementPrompt
    ensures RefineImage(current.base64, current.mimeType, prompt, backend).Err? ==>
      a.calls == [a.calls[0]] && a.thrown == Some(RefineImage(current.base64, current.mimeType, prompt, backend).error)
    ensures RefineImage(current.base64, current.mimeType, prompt, backend).Ok? ==>
      var refined := RefineImage(current.base64, current.mimeType, prompt, backend).value;
      && a.calls == [a.calls[0], ContentCall(TagsRequest(refined.base64, s.article))]
      && (GenerateTagsForImage(refined.base64, s.article, backend).Err? ==>
            a.thrown == Some(GenerateTagsForImage(refined.base64, s.article, backend).error))
    ensures a.thrown.None? <==>
      RefineImage(current.base64, current.mimeType, prompt, backend).Ok?
      && GenerateTagsForImage(RefineImage(current.base64, current.mimeType, prompt, backend).value.base64, s.article, backend).Ok?
    ensures a.thrown.None? ==>
      var refined := RefineImage(current.base64, current.mimeType, prompt, backend).value;
      && a.calls == [a.calls[0], ContentCall(TagsRequest(refined.base64, s.article))]
      && a.after.generatedImage.Some? && a.after.generatedImage.value.(tags := None) == refined
      && TaggedFromOwnBytes(a.after.generatedImage.value, s.article, backend)
      && a.after.refinementPrompt == ""
  {
    var refineCall := ContentCall(RefineRequest(current.base64, current.mimeType, prompt));
    match RefineImage(current.base64, current.mimeType, prompt, backend)
    case Err(e) => Attempt(s, [refineCall], Some(e))
    case Ok(refined) =>
      var tagging := s.(loadingMessage := UpdatingTagsMessage);
      var calls := [refineCall, ContentCall(TagsRequest(refined.base64, s.article))];
      match GenerateTagsForImage(refined.base64, s.article, backend)
      case Err(e) => Attempt(tagging, calls, Some(e))
      case Ok(tags) =>
        Attempt(tagging.(generatedImage := Some(refined.(tags := Some(tags))), refinementPrompt := ""), calls, None)
  }

  /** `handleRefineImage`. Without an image, or with a blank refinement prompt,
      only the error is set and no call is made. Otherwise the current image is
      refined with the refinement prompt as typed; the stage never changes, and
      a failure keeps the image and the refinement prompt and shows the fixed
      message. */
  function AfterRefineImage(s: Session, backend: Backend): (t: Transition)
    ensures s.generatedImage.None? || IsBlank(s.refinementPrompt) ==>
      t.calls == [] && t.after == s.(error := Some(RefineGuardMessage))
    ensures s.generatedImage.Some? && !IsBlank(s.refinementPrompt) ==>
      var a := RefinementAttempt(s, s.generatedImage.value, s.refinementPrompt, backend);
      && t.calls == a.calls
      && t.after == s.(generatedImage := t.after.generatedImage, refinementPrompt := t.after.refinementPrompt,
                       error := t.after.error, isLoading := false, loadingMessage := t.after.loadingMessage)
      && t.after.generatedImage == a.after.generatedImage && t.after.refinementPrompt == a.after.refinementPrompt
      && t.after.error == (if a.thrown.Some? then Some(RefineFailedMessage) else None)
  {
    if s.generatedImage.None? || IsBlank(s.refinementPrompt) then
      Transition(s.(error := Some(RefineGuardMessage)), [])
    else
      var busy := s.(isLoading := true, loadingMessage := ApplyingEditsMessage, error := None);
      var a := RefinementAttempt(busy, s.generatedImage.value, s.refinementPrompt, backend);
      var settled := if a.thrown.Some? then AfterError(a.after, RefineFailedMessage) else a.after;
      Transition(settled.(isLoading := false), a.calls)
  }

  /** `handleRefineStyle`. Only an image is required; without one only the
      error is set and no call is made. Otherwise the fixed style instruction
      goes through the same refinement path as a typed refinement. */
  function AfterRefineStyle(s: Session, style: string, backend: Backend): (t: Transition)
    ensures s.generatedImage.None? ==> t.calls == [] && t.after == s.(error := Some(StyleGuardMessage))
    ensures s.generatedImage.Some? ==>
      var a := RefinementAttempt(s, s.generatedImage.value, StylePrompt(style), backend);
      && t.calls == a.calls
      && t.calls[0] == ContentCall(RefineRequest(s.generatedImage.value.base64, s.generatedImage.value.mimeType,
                                                 StylePrompt(style)))
      && t.after == s.(generatedImage := t.after.generatedImage, refinementPrompt := t.after.refinementPrompt,
                       error := t.after.error, isLoading := false, loadingMessage := t.after.loadingMessage)
      && t.after.generatedImage == a.after.generatedImage && t.after.refinementPrompt == a.after.refinementPrompt
      && t.after.error == (if a.thrown.Some? then Some(StyleFailedMessage) else None)
  {
    if s.generatedImage.None? then Transition(s.(error := Some(StyleGuardMessage)), [])
    else
      var busy := s.(isLoading := true, loadingMessage := ChangingStyleMessage(style), error := None);
      var a := RefinementAttempt(busy, s.generatedImage.value, StylePrompt(style), backend);
      var settled := if a.thrown.Some? then AfterError(a.after, StyleFailedMessage) else a.after;
      Transition(settled.(isLoading := false), a.calls)
  }

  /** `handleStartOver`: every field returns to its initial value, whatever the
      session held, except the loading message, which the handler does not
      set. */
  function AfterStartOver(s: Session): (t: Session)
    ensures t.(loadingMessage := Initial.loadingMessage) == Initial
    ensures t.loadingMessage == s.loadingMessage
  {
    Session(ARTICLE_INPUT, false, s.loadingMessage, None, "", [], None, "")
  }

  /** `handleBackToPrompts`: drop the image, the refinement prompt, the error
      and the loading flag and return to prompt selection, keeping the article
      and the prompts. */
  function AfterBackToPrompts(s: Session): (t: Session)
    ensures t.workflowState == PROMPT_SELECTION && !t.isLoading && t.error.None?
    ensures t.generatedImage.None? && t.refinementPrompt == ""
    ensures t.article == s.article && t.prompts == s.prompts && t.loadingMessage == s.loadingMessage
  {
    s.(generatedImage := None, refinementPrompt := "", error := None, isLoading := false,
       workflowState := PROMPT_SELECTION)
  }

  // ---------------------------------------------------------------------------
  // The stage-to-handler wiring of renderContent
  // ---------------------------------------------------------------------------

  /** What the user can do on each stage's view. */
  datatype Intent =
    | EditArticle(text: string)      // article text area: setArticle
    | SubmitArticle                  // onSubmit: handleGeneratePrompts
    | SelectPrompt(index: nat)       // onSelect(prompts[index].prompt): handleGenerateImage
    | BackToArticle                  // onBack: handleStartOver
    | EditRefinement(text: string)   // refinement input: setRefinementPrompt
    | Refine                         // onRefine: handleRefineImage
    | RefineStyle(style: string)     // onRefineStyle(style): handleRefineStyle
    | BackToPrompts                  // onBackToPrompts: handleBackToPrompts

  /** The stage whose view holds the control for the intent. */
  function ViewOf(i: Intent): WorkflowState {
    match i
    case EditArticle(_) => ARTICLE_INPUT
    case SubmitArticle => ARTICLE_INPUT
    case SelectPrompt(_) => PROMPT_SELECTION
    case BackToArticle => PROMPT_SELECTION
    case _ => IMAGE_DISPLAY
  }

  /** The control for the intent is on screen and enabled: each stage renders
      only its own view, every control is disabled while loading, the submit
      and refine buttons are disabled while their text is blank, the prompt
      list is hidden while loading, a prompt can only be chosen from the list
      shown, a style only from the buttons shown, and the image view renders
      nothing without an image. The contract reads the same guards per view,
      in both directions, as documentation for callers. */
  predicate Enabled(s: Session, i: Intent): (b: bool)
    ensures b ==> !s.isLoading && s.workflowState == ViewOf(i)
    ensures b && ViewOf(i) == IMAGE_DISPLAY ==> s.generatedImage.Some?
    ensures b ==> match i
      case SubmitArticle => !IsBlank(s.article)
      case SelectPrompt(k) => k < |s.prompts|
      case Refine => !IsBlank(s.refinementPrompt)
      case RefineStyle(style) => style in RefineStyles
      case _ => true
    ensures !s.isLoading && s.workflowState == ViewOf(i)
            && (ViewOf(i) == IMAGE_DISPLAY ==> s.generatedImage.Some?)
            && !(i.SubmitArticle? && IsBlank(s.article)) && !(i.SelectPrompt? && i.index >= |s.prompts|)
            && !(i.Refine? && IsBlank(s.refinementPrompt)) && !(i.RefineStyle? && i.style !in RefineStyles)
            ==> b
  {
    !s.isLoading &&
    match i
    case EditArticle(_) => s.workflowState == ARTICLE_INPUT
    case SubmitArticle => s.workflowState == ARTICLE_INPUT && !IsBlank(s.article)
    case SelectPrompt(k) => s.workflowState == PROMPT_SELECTION && k < |s.prompts|
    case BackToArticle => s.workflowState == PROMPT_SELECTION
    case EditRefinement(_) => s.workflowState == IMAGE_DISPLAY && s.generatedImage.Some?
    case Refine => s.workflowState == IMAGE_DISPLAY && s.generatedImage.Some? && !IsBlank(s.refinementPrompt)
    case RefineStyle(style) => s.workflowState == IMAGE_DISPLAY && s.generatedImage.Some? && style in RefineStyles
    case BackToPrompts => s.workflowState == IMAGE_DISPLAY && s.generatedImage.Some?
  }

  /** The stage moves that `renderContent`'s wiring allows: staying, forward
      one stage, back from prompt selection to the article, and back from the
      image to prompt selection. */
  predicate StageMove(from: WorkflowState, to: WorkflowState) {
    || from == to
    || (from == ARTICLE_INPUT && to == PROMPT_SELECTION)
    || (from == PROMPT_SELECTION && to == IMAGE_DISPLAY)
    || (from == PROMPT_SELECTION && to == ARTICLE_INPUT)
    || (from == IMAGE_DISPLAY && to == PROMPT_SELECTION)
  }

  /** The handler an intent runs. It always ends with loading cleared, moves
      only along the stage graph, and only the four service actions call the
      service, at most twice each; editing a text changes only that text. */
  function Next(s: Session, i: Intent, backend: Backend): (t: Transition)
    requires Enabled(s, i)
    ensures !t.after.isLoading && StageMove(s.workflowState, t.after.workflowState)
    ensures |t.calls| <= 2
    ensures t.calls != [] ==> i.SubmitArticle? || i.SelectPrompt? || i.Refine? || i.RefineStyle?
    ensures i.EditArticle? ==> t.after == s.(article := i.text)
    ensures i.EditRefinement? ==> t.after == s.(refinementPrompt := i.text)
  {
    match i
    case EditArticle(text) => Transition(s.(article := text), [])
    case SubmitArticle => AfterGeneratePrompts(s, backend)
    case SelectPrompt(k) => AfterGenerateImage(s, s.prompts[k].prompt, backend)
    case BackToArticle => Transition(AfterStartOver(s), [])
    case EditRefinement(text) => Transition(s.(refinementPrompt := text), [])
    case Refine => AfterRefineImage(s, backend)
    case RefineStyle(style) => AfterRefineStyle(s, style, backend)
    case BackToPrompts => Transition(AfterBackToPrompts(s), [])
  }

  /** What holds between user actions: nothing is loading; an image is current
      exactly on the image stage, and it always carries tags; the article stage
      has no prompts left over; and a refinement prompt exists only on the image
      stage. */
  predicate Valid(s: Session) {
    && !s.isLoading
    && (s.generatedImage.Some? <==> s.workflowState == IMAGE_DISPLAY)
    && (s.generatedImage.Some? ==> s.generatedImage.value.tags.Some?)
    && (s.workflowState == ARTICLE_INPUT ==> s.prompts == [])
    && (s.workflowState != IMAGE_DISPLAY ==> s.refinementPrompt == "")
  }

  /** Every enabled action keeps the invariant. */
  lemma NextKeepsValid(s: Session, i: Intent, backend: Backend)
    requires Valid(s) && Enabled(s, i)
    ensures Valid(Next(s, i, backend).after)
  {
  }

  /** One user action together with the backend's answers to it. */
  datatype Step = Step(intent: Intent, backend: Backend)

  /** The session after a sequence of user actions; an action whose control is
      absent or disabled does nothing. */
  function Run(s: Session, steps: seq<Step>): Session
    decreases |steps|
  {
    if steps == [] then s
    else
      var next := if Enabled(s, steps[0].intent) then Next(s, steps[0].intent, steps[0].backend).after else s;
      Run(next, steps[1..])
  }

  /** The invariant holds after any sequence of actions from a valid session. */
  lemma {:induction false} RunKeepsValid(s: Session, steps: seq<Step>)
    requires Valid(s)
    ensures Valid(Run(s, steps))
    decreases |steps|
  {
    if steps != [] {
      if Enabled(s, steps[0].intent) {
        NextKeepsValid(s, steps[0].intent, steps[0].backend);
        RunKeepsValid(Next(s, steps[0].intent, steps[0].backend).after, steps[1..]);
      } else {
        RunKeepsValid(s, steps[1..]);
      }
    }
  }

  /** Every session the application can reach satisfies the invariant. */
  lemma ReachableIsValid(steps: seq<Step>)
    ensures Valid(Run(Initial, steps))
  {
    RunKeepsValid(Initial, steps);
  }

  /** An action that ends with an error on screen leaves the current image as it
      was: no failure, validation or service, ever overwrites it. */
  lemma FailureNeverOverwritesImage(s: Session, i: Intent, backend: Backend)
    requires Enabled(s, i)
    ensures Next(s, i, backend).after.error.Some? ==> Next(s, i, backend).after.generatedImage == s.generatedImage
  {
  }

  /** The prompt array is not checked to be non-empty, so a successful
      submission can move to prompt selection with no prompt to choose: a
      service answering `{"prompts": []}` does exactly that. */
  lemma SubmitMayYieldNoPrompts(s: Session)
    requires !IsBlank(s.article)
    ensures var backend := Backend(
              q => Ok(ContentResponse([], Some(JObject(map["prompts" := JArray([])])))),
              q => Err(Transport));
      var t := AfterGeneratePrompts(s, backend).after;
      t.workflowState == PROMPT_SELECTION && t.prompts == [] && t.error.None?
  {
  }

  /** The "Back" button of the prompt-selection view is the full reset. */
  lemma BackToArticleIsStartOver(s: Session, backend: Backend)
    requires Enabled(s, BackToArticle)
    ensures Next(s, BackToArticle, backend) == Transition(AfterStartOver(s), [])
  {
  }

  // ---------------------------------------------------------------------------
  // The controller as mutable state
  // ---------------------------------------------------------------------------

  class App {
    var workflowState: WorkflowState
    var isLoading: bool
    var loadingMessage: string
    var error: Option<string>
    var article: string
    var prompts: seq<TaggedPrompt>
    var generatedImage: Option<GeneratedImage>
    var refinementPrompt: string
    /** The service calls made so far, in order. */
    ghost var sent: seq<Call>

    function State(): Session
      reads this
    {
      Session(workflowState, isLoading, loadingMessage, error, article, prompts, generatedImage, refinementPrompt)
    }

    constructor ()
      ensures State() == Initial && sent == []
    {
      workflowState := ARTICLE_INPUT;
      isLoading := false;
      loadingMessage := "";
      error := None;
      article := "";
      prompts := [];
      generatedImage := None;
      refinementPrompt := "";
      sent := [];
    }

    /** The article text area's `setArticle`. */
    method SetArticle(text: string)
      modifies this
      ensures State() == old(State()).(article := text) && sent == old(sent)
    {
      article := text;
    }

    /** The refinement input's `setRefinementPrompt`. */
    method SetRefinementPrompt(text: string)
      modifies this
      ensures State() == old(State()).(refinementPrompt := text) && sent == old(sent)
    {
      refinementPrompt := text;
    }

    method HandleError(message: string)
      modifies this
      ensures State() == AfterError(old(State()), message) && sent == old(sent)
    {
      error := Some(message);
      isLoading := false;
    }

    method HandleGeneratePrompts(backend: Backend)
      modifies this
      ensures State() == AfterGeneratePrompts(old(State()), backend).after
      ensures sent == old(sent) + AfterGeneratePrompts(old(State()), backend).calls
    {
      if IsBlank(article) {
        error := Some(EmptyArticleMessage);
        return;
      }
      isLoading := true;
      loadingMessage := AnalyzingMessage;
      error := None;
      sent := sent + [ContentCall(PromptsRequest(article))];
      var suggested := GeneratePromptsForArticle(article, backend);
      if suggested.Ok? {
        prompts := suggested.value;
        workflowState := PROMPT_SELECTION;
      } else {
        HandleError(PromptsFailedMessage);
      }
      isLoading := false;
    }

    method HandleGenerateImage(prompt: string, backend: Backend)
      modifies this
      ensures State() == AfterGenerateImage(old(State()), prompt, backend).after
      ensures sent == old(sent) + AfterGenerateImage(old(State()), prompt, backend).calls
    {
      isLoading := true;
      loadingMessage := CreatingMessage;
      error := None;
      sent := sent + [ImagesCall(ImagesRequestFor(prompt))];
      match GenerateImageFromPrompt(prompt, backend) {
        case Err(_) =>
          HandleError(ImageFailedMessage);
        case Ok(image) =>
          loadingMessage := TaggingMessage;
          sent := sent + [ContentCall(TagsRequest(image.base64, article))];
          match GenerateTagsForImage(image.base64, article, backend) {
            case Err(_) =>
              HandleError(ImageFailedMessage);
            case Ok(tags) =>
              generatedImage := Some(image.(tags := Some(tags)));
              workflowState := IMAGE_DISPLAY;
          }
      }
      isLoading := false;
    }

    /** Returns the error the refinement threw, if any. */
    method PerformImageRefinement(current: GeneratedImage, prompt: string, backend: Backend)
      returns (thrown: Option<ServiceError>)
      modifies this
      ensures State() == RefinementAttempt(old(State()), current, prompt, backend).after
      ensures sent == old(sent) + RefinementAttempt(old(State()), current, prompt, backend).calls
      ensures thrown == RefinementAttempt(old(State()), current, prompt, backend).thrown
    {
      sent := sent + [ContentCall(RefineRequest(current.base64, current.mimeType, prompt))];
      var refined := RefineImage(current.base64, current.mimeType, prompt, backend);
      if refined.Err? {
        return Some(refined.error);
      }
      loadingMessage := UpdatingTagsMessage;
      sent := sent + [ContentCall(TagsRequest(refined.value.base64, article))];
      var tags := GenerateTagsForImage(refined.value.base64, article, backend);
      if tags.Err? {
        return Some(tags.error);
      }
      generatedImage := Some(refined.value.(tags := Some(tags.value)));
      refinementPrompt := "";
      thrown := None;
    }

    method HandleRefineImage(backend: Backend)
      modifies this
      ensures State() == AfterRefineImage(old(State()), backend).after
      ensures sent == old(sent) + AfterRefineImage(old(State()), backend).calls
    {
      if generatedImage.None? || IsBlank(refinementPrompt) {
        error := Some(RefineGuardMessage);
        return;
      }
      isLoading := true;
      loadingMessage := ApplyingEditsMessage;
      error := None;
      var thrown := PerformImageRefinement(generatedImage.value, refinementPrompt, backend);
      if thrown.Some? {
        HandleError(RefineFailedMessage);
      }
      isLoading := false;
    }

    method HandleRefineStyle(style: string, backend: Backend)
      modifies this
      ensures State() == AfterRefineStyle(old(State()), style, backend).after
      ensures sent == old(sent) + AfterRefineStyle(old(State()), style, backend).calls
    {
      if generatedImage.None? {
        error := Some(StyleGuardMessage);
        return;
      }
      isLoading := true;
      loadingMessage := ChangingStyleMessage(style);
      error := None;
      var thrown := PerformImageRefinement(generatedImage.value, StylePrompt(style), backend);
      if thrown.Some? {
        HandleError(StyleFailedMessage);
      }
      isLoading := false;
    }

    method HandleStartOver()
      modifies this
      ensures State() == AfterStartOver(old(State())) && sent == old(sent)
    {
      workflowState := ARTICLE_INPUT;
      article := "";
      prompts := [];
      generatedImage := None;
      refinementPrompt := "";
      error := None;
      isLoading := false;
    }

    method HandleBackToPrompts()
      modifies this
      ensures State() == AfterBackToPrompts(old(State())) && sent == old(sent)
    {
      generatedImage := None;
      refinementPrompt := "";
      error := None;
      isLoading := false;
      workflowState := PROMPT_SELECTION;
    }

    /** `renderContent`'s wiring: run the handler behind an enabled control.
        The invariant is kept. */
    method Dispatch(i: Intent, backend: Backend)
      requires Valid(State()) && Enabled(State(), i)
      modifies this
      ensures Valid(State())
      ensures State() == Next(old(State()), i, backend).after
      ensures sent == old(sent) + Next(old(State()), i, backend).calls
    {
      NextKeepsValid(State(), i, backend);
      match i {
        case EditArticle(text) => SetArticle(text);
        case SubmitArticle => HandleGeneratePrompts(backend);
        case SelectPrompt(k) => HandleGenerateImage(prompts[k].prompt, backend);
        case BackToArticle => HandleStartOver();
        case EditRefinement(text) => SetRefinementPrompt(text);
        case Refine => HandleRefineImage(backend);
        case RefineStyle(style) => HandleRefineStyle(style, backend);
        case BackToPrompts => HandleBackToPrompts();
      }
    }
  }
}
