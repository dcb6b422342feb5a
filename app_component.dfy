/** The workflow state of `AppComponent` (src/app.component.ts): the photo
    slots, the chosen style, the busy flag, the status and error texts, the
    generated image and the pending edit instruction, and the operations that
    change them. Each awaited service call is a call of an endpoint parameter;
    each workflow runs as one sequential method. */
module AppComponent {

  import opened Wrappers
  import opened Text
  import opened GeminiService

  /** The fixed texts the page shows: the error banner and the status line of
      the two-step workflows. The state holds which one is shown; `MessageText`
      gives its wording. */
  datatype Message =
    | InvalidImage | ReunifyFailed | EditFailed
    | ReunifyStep1 | ReunifyStep2 | EditStep1 | EditStep2

  /** The status prefixes of the two steps. */
  const FirstStep := "Step 1/2: "
  const SecondStep := "Step 2/2: "

  function MessageText(m: Message): (t: string)
    ensures m == ReunifyStep1 || m == EditStep1 ==> StartsWith(t, FirstStep)
    ensures m == ReunifyStep2 || m == EditStep2 ==> StartsWith(t, SecondStep)
  {
    match m
    case InvalidImage => "Please upload a valid image file."
    case ReunifyFailed => "An error occurred while creating your image. Please try again."
    case EditFailed => "An error occurred while editing your image. Please try again."
    case ReunifyStep1 => FirstStep + "Analyzing your photos and chosen style..."
    case ReunifyStep2 => SecondStep + "Painting your new memory..."
    case EditStep1 => FirstStep + "Understanding your edit request..."
    case EditStep2 => SecondStep + "Re-imagining your photo..."
  }

  const DefaultStyle := "friendly"

  /** A snapshot of the component's signals. The status line and the error
      banner hold one of the fixed messages or nothing (the empty status text,
      the `null` error). */
  datatype AppState = AppState(
    childhoodPhoto: Option<string>,
    currentPhoto: Option<string>,
    generatedPhoto: Option<string>,
    selectedStyle: string,
    isLoading: bool,
    statusMessage: Option<Message>,
    errorMessage: Option<Message>,
    editPrompt: string)

  /** The state a session starts in. */
  const InitialState := AppState(None, None, None, DefaultStyle, false, None, None, "")

  /** The final state of a workflow together with the service requests it made, in order. */
  datatype Run = Run(state: AppState, requests: seq<Request>)

  datatype Slot = Childhood | Current

  /** The file the user picked: its declared type and the data URL the file
      reader produces for it. */
  datatype SelectedFile = SelectedFile(fileType: string, dataUrl: string)

  /** JavaScript truthiness of a `string | null`: present and not empty. */
  predicate Truthy(p: Option<string>) {
    p.Some? && p.value != ""
  }

  /** No workflow is in flight and no step is announced. */
  predicate Settled(s: AppState) {
    !s.isLoading && s.statusMessage.None?
  }

  /** `canReunify`: both photo slots hold a photo and nothing is running. */
  predicate CanReunify(s: AppState)
    ensures CanReunify(s) ==> s.childhoodPhoto.Some? && s.currentPhoto.Some? && !s.isLoading
    ensures s.childhoodPhoto == Some("") || s.currentPhoto == Some("") ==> !CanReunify(s)
  {
    Truthy(s.childhoodPhoto) && Truthy(s.currentPhoto) && !s.isLoading
  }

  /** `canEdit`: there is an image to edit, the instruction has a character
      other than whitespace, and nothing is running. */
  predicate CanEdit(s: AppState)
    ensures CanEdit(s) ==> s.generatedPhoto.Some? && s.editPrompt != "" && !s.isLoading
    ensures s.generatedPhoto == Some("") ==> !CanEdit(s)
  {
    Truthy(s.generatedPhoto) && |Trim(s.editPrompt)| > 0 && !s.isLoading
  }

  /** Editing is enabled exactly when the instruction has a character other
      than whitespace (and there is an image and nothing runs): an instruction
      of spaces only never enables it. */
  lemma {:induction false} CanEditIff(s: AppState)
    ensures CanEdit(s) <==>
      && Truthy(s.generatedPhoto)
      && (exists i :: 0 <= i < |s.editPrompt| && !IsWhitespace(s.editPrompt[i]))
      && !s.isLoading
  {
    TrimEmptyIff(s.editPrompt);
  }

  /** The `finally` block of both workflows: settles and changes nothing else. */
  function Finish(s: AppState): (r: AppState)
    ensures Settled(r)
    ensures r.(isLoading := s.isLoading, statusMessage := s.statusMessage) == s
  {
    s.(isLoading := false, statusMessage := None)
  }

  /** `reunifyPhotos`: guard; go busy, clear the error and the old image; ask
      the text model for a descriptive prompt, then the image model for the
      image; keep the image, or show the generic error; always settle. */
  function Reunify(s: AppState, content: ContentEndpoint, images: ImagesEndpoint): (r: Run)
    ensures !CanReunify(s) ==> r == Run(s, [])
    ensures CanReunify(s) ==> Settled(r.state)
    ensures CanReunify(s) ==>
      r.state == s.(generatedPhoto := r.state.generatedPhoto, errorMessage := r.state.errorMessage,
                    statusMessage := None)
    ensures CanReunify(s) ==>
      && 1 <= |r.requests| <= 2
      && r.requests[0] == ReunifyPromptRequest(s.childhoodPhoto.value, s.currentPhoto.value, s.selectedStyle)
      && (|r.requests| == 2 <==> content(r.requests[0]).Success?)
      && (|r.requests| == 2 ==> r.requests[1] == ImageRequest(content(r.requests[0]).value))
    ensures CanReunify(s) ==>
      && (r.state.errorMessage == None || r.state.errorMessage == Some(ReunifyFailed))
      && (r.state.generatedPhoto.None? <==> r.state.errorMessage.Some?)
      && (r.state.generatedPhoto.Some? <==>
            |r.requests| == 2 && GenerateImage(images, r.requests[1].prompt).Success?)
      && (r.state.generatedPhoto.Some? ==>
            r.state.generatedPhoto.value == GenerateImage(images, r.requests[1].prompt).value)
  {
    if !CanReunify(s) then Run(s, [])
    else
      var busy := s.(isLoading := true, errorMessage := None, generatedPhoto := None);
      var promptRequest := ReunifyPromptRequest(s.childhoodPhoto.value, s.currentPhoto.value, s.selectedStyle);
      match content(promptRequest)
      case Failure(_) =>
        Run(Finish(busy.(errorMessage := Some(ReunifyFailed))), [promptRequest])
      case Success(descriptivePrompt) =>
        var requests := [promptRequest] + [ImageRequest(descriptivePrompt)];
        match GenerateImage(images, descriptivePrompt)
        case Failure(_) => Run(Finish(busy.(errorMessage := Some(ReunifyFailed))), requests)
        case Success(imageData) => Run(Finish(busy.(generatedPhoto := Some(imageData))), requests)
  }

  /** `editImage`: guard; go busy and clear the error; ask the text model to
      describe the edited image, then the image model for it; on success
      replace the image and clear the instruction, on failure keep both and
      show the generic error; always settle. */
  function Edit(s: AppState, content: ContentEndpoint, images: ImagesEndpoint): (r: Run)
    ensures !CanEdit(s) ==> r == Run(s, [])
    ensures CanEdit(s) ==> Settled(r.state)
    ensures CanEdit(s) ==>
      r.state == s.(generatedPhoto := r.state.generatedPhoto, errorMessage := r.state.errorMessage,
                    editPrompt := r.state.editPrompt, statusMessage := None)
    ensures CanEdit(s) ==>
      && 1 <= |r.requests| <= 2
      && r.requests[0] == EditPromptRequest(s.generatedPhoto.value, s.editPrompt)
      && (|r.requests| == 2 <==> content(r.requests[0]).Success?)
      && (|r.requests| == 2 ==> r.requests[1] == ImageRequest(content(r.requests[0]).value))
    ensures CanEdit(s) ==>
      var succeeded := |r.requests| == 2 && GenerateImage(images, r.requests[1].prompt).Success?;
      && (succeeded ==>
            && r.state.generatedPhoto == Some(GenerateImage(images, r.requests[1].prompt).value)
            && r.state.editPrompt == ""
            && r.state.errorMessage == None)
      && (!succeeded ==>
            && r.state.generatedPhoto == s.generatedPhoto
            && r.state.editPrompt == s.editPrompt
            && r.state.errorMessage == Some(EditFailed))
  {
    if !CanEdit(s) then Run(s, [])
    else
      var busy := s.(isLoading := true, errorMessage := None);
      var promptRequest := EditPromptRequest(s.generatedPhoto.value, s.editPrompt);
      match content(promptRequest)
      case Failure(_) =>
        Run(Finish(busy.(errorMessage := Some(EditFailed))), [promptRequest])
      case Success(descriptivePrompt) =>
        var requests := [promptRequest] + [ImageRequest(descriptivePrompt)];
        match GenerateImage(images, descriptivePrompt)
        case Failure(_) => Run(Finish(busy.(errorMessage := Some(EditFailed))), requests)
        case Success(imageData) =>
          Run(Finish(busy.(generatedPhoto := Some(imageData), editPrompt := "")), requests)
  }

  /** The session starts settled, and neither workflow can leave it otherwise:
      the busy flag and the status text are reset on every exit path. Every
      awaited model call is taken to settle (each endpoint is a total
      function); a call that never settles would leave the source busy, on its
      step text, for good. */
  lemma {:induction false} WorkflowsKeepSettled(s: AppState, content: ContentEndpoint, images: ImagesEndpoint)
    requires Settled(s)
    ensures Settled(InitialState)
    ensures Settled(Reunify(s, content, images).state)
    ensures Settled(Edit(s, content, images).state)
  {
  }

  /** While a workflow is in flight neither workflow can start: both are no-ops
      that make no request. */
  lemma {:induction false} BusyExcludesWorkflows(s: AppState, content: ContentEndpoint, images: ImagesEndpoint)
    requires s.isLoading
    ensures Reunify(s, content, images) == Run(s, [])
    ensures Edit(s, content, images) == Run(s, [])
  {
  }

  /** After a reunify whose image model returned base64 bytes `b`, typing an
      instruction with a visible character enables editing, and the edit sends
      exactly `b` back to the text model as a PNG part. */
  lemma {:induction false} EditSendsReunifiedImage(
    s: AppState, content: ContentEndpoint, images: ImagesEndpoint,
    prompt: string, b: string, later: seq<GeneratedImage>,
    instruction: string, k: nat, editContent: ContentEndpoint, editImages: ImagesEndpoint)
    requires CanReunify(s)
    requires content(ReunifyPromptRequest(s.childhoodPhoto.value, s.currentPhoto.value, s.selectedStyle)) == Success(prompt)
    requires images(ImageRequest(prompt)) == Success(ImagesResponse(Some([GeneratedImage(b)] + later)))
    requires IsBase64(b)
    requires k < |instruction| && !IsWhitespace(instruction[k])
    ensures var next := Reunify(s, content, images).state.(editPrompt := instruction);
      && next.generatedPhoto == Some(PngDataUri(b))
      && CanEdit(next)
      && Edit(next, editContent, editImages).requests[0].parts[0] == InlineData(Some(b), "image/png")
  {
    var next := Reunify(s, content, images).state.(editPrompt := instruction);
    LaterImagesIgnored(GeneratedImage(b), later);
    assert next.generatedPhoto == Some(PngDataUri(b));
    CanEditIff(next);
    PngDataUriRoundTrip(b, "image/png");
  }

  /** A reunify where both model calls succeed shows the new image and no error. */
  lemma {:induction false} ReunifySucceeds()
    ensures var s := InitialState.(childhoodPhoto := Some("P1"), currentPhoto := Some("P2"), selectedStyle := "cool");
      var r := Reunify(s, (_: Request) => Success("T1"),
                          (_: Request) => Success(ImagesResponse(Some([GeneratedImage("I1")]))));
      && r.state == s.(generatedPhoto := Some("data:image/png;base64,I1"))
      && r.requests == [ReunifyPromptRequest("P1", "P2", "cool"), ImageRequest("T1")]
  {
    var s := InitialState.(childhoodPhoto := Some("P1"), currentPhoto := Some("P2"), selectedStyle := "cool");
    assert CanReunify(s);
    assert PngDataUri("I1") == "data:image/png;base64,I1";
  }

  /** A reunify whose image model returns no image leaves no image and the
      generic error, and settles. */
  lemma {:induction false} ReunifyWithoutImageFails()
    ensures var s := InitialState.(childhoodPhoto := Some("P1"), currentPhoto := Some("P2"), selectedStyle := "cool");
      var r := Reunify(s, (_: Request) => Success("T1"),
                          (_: Request) => Success(ImagesResponse(Some([]))));
      r.state == s.(errorMessage := Some(ReunifyFailed))
  {
  }

  /** An instruction of two spaces does not enable editing; the edit is a no-op. */
  lemma {:induction false} BlankInstructionDisablesEdit(content: ContentEndpoint, images: ImagesEndpoint)
    ensures var s := InitialState.(generatedPhoto := Some("I1"), editPrompt := "  ");
      !CanEdit(s) && Edit(s, content, images) == Run(s, [])
  {
  }

  /** An edit where both model calls succeed replaces the image and clears the
      instruction. */
  lemma {:induction false} EditSucceeds()
    ensures var s := InitialState.(generatedPhoto := Some("I1"), editPrompt := "make it sunset");
      var r := Edit(s, (_: Request) => Success("T2"),
                       (_: Request) => Success(ImagesResponse(Some([GeneratedImage("I2")]))));
      r.state == s.(generatedPhoto := Some("data:image/png;base64,I2"), editPrompt := "")
  {
    var s := InitialState.(generatedPhoto := Some("I1"), editPrompt := "make it sunset");
    CanEditIff(s);
    assert !IsWhitespace(s.editPrompt[0]);
    assert PngDataUri("I2") == "data:image/png;base64,I2";
  }

  /** The component as the page sees it: one field per signal. */
  class App {
    var childhoodPhoto: Option<string>
    var currentPhoto: Option<string>
    var generatedPhoto: Option<string>
    var selectedStyle: string
    var isLoading: bool
    var statusMessage: Option<Message>
    var errorMessage: Option<Message>
    var editPrompt: string

    function State(): AppState
      reads this
    {
      AppState(childhoodPhoto, currentPhoto, generatedPhoto, selectedStyle,
               isLoading, statusMessage, errorMessage, editPrompt)
    }

    constructor ()
      ensures State() == InitialState
    {
      childhoodPhoto, currentPhoto, generatedPhoto := None, None, None;
      selectedStyle := DefaultStyle;
      isLoading, statusMessage, errorMessage := false, None, None;
      editPrompt := "";
    }

    /** `onPhotoSelected` once the file has been read: `file` is None when the
        input holds no file. A file whose type is not `image/...` only sets
        the error; an image clears the error and fills the chosen slot. */
    method OnPhotoSelected(file: Option<SelectedFile>, slot: Slot)
      modifies this
      ensures file.None? ==> State() == old(State())
      ensures file.Some? && !StartsWith(file.value.fileType, "image/") ==>
        State() == old(State()).(errorMessage := Some(InvalidImage))
      ensures file.Some? && StartsWith(file.value.fileType, "image/") ==>
        State() == old(State()).(
          errorMessage := None,
          childhoodPhoto := if slot == Childhood then Some(file.value.dataUrl) else old(childhoodPhoto),
          currentPhoto := if slot == Current then Some(file.value.dataUrl) else old(currentPhoto))
    {
      if file.Some? {
        if !StartsWith(file.value.fileType, "image/") {
          errorMessage := Some(InvalidImage);
          return;
        }
        errorMessage := None;
        var base64 := file.value.dataUrl;
        if slot == Childhood {
          childhoodPhoto := Some(base64);
        } else {
          currentPhoto := Some(base64);
        }
      }
    }

    /** `selectStyle`: stores the id as given; it is not checked against the catalog. */
    method SelectStyle(styleId: string)
      modifies this
      ensures State() == old(State()).(selectedStyle := styleId)
    {
      selectedStyle := styleId;
    }

    /** `updateEditPrompt` with the input's value as its argument. */
    method UpdateEditPrompt(value: string)
      modifies this
      ensures State() == old(State()).(editPrompt := value)
    {
      editPrompt := value;
    }

    /** `reunifyPhotos`, returning the service requests it made. */
    method ReunifyPhotos(content: ContentEndpoint, images: ImagesEndpoint) returns (requests: seq<Request>)
      modifies this
      ensures Run(State(), requests) == Reunify(old(State()), content, images)
    {
      requests := [];
      if !CanReunify(State()) {
        return;
      }
      var childPhoto, adultPhoto, style := childhoodPhoto, currentPhoto, selectedStyle;
      if !Truthy(childPhoto) || !Truthy(adultPhoto) {
        return;
      }

      isLoading := true;
      errorMessage := None;
      generatedPhoto := None;

      // try
      statusMessage := Some(ReunifyStep1);
      requests := [ReunifyPromptRequest(childPhoto.value, adultPhoto.value, style)];
      var outcome := GenerateReunifyPrompt(content, childPhoto.value, adultPhoto.value, style);
      if outcome.Success? {
        var descriptivePrompt := outcome.value;
        statusMessage := Some(ReunifyStep2);
        requests := requests + [ImageRequest(descriptivePrompt)];
        outcome := GenerateImage(images, descriptivePrompt);
        if outcome.Success? {
          generatedPhoto := Some(outcome.value);
        }
      }
      // catch
      if outcome.Failure? {
        errorMessage := Some(ReunifyFailed);
      }
      // finally
      isLoading := false;
      statusMessage := None;
    }

    /** `editImage`, returning the service requests it made. */
    method EditImage(content: ContentEndpoint, images: ImagesEndpoint) returns (requests: seq<Request>)
      modifies this
      ensures Run(State(), requests) == Edit(old(State()), content, images)
    {
      requests := [];
      if !CanEdit(State()) {
        return;
      }
      var baseImage, prompt := generatedPhoto, editPrompt;
      if !Truthy(baseImage) || prompt == "" {
        return;
      }

      ghost var expected := Edit(State(), content, images);
      isLoading := true;
      errorMessage := None;

      // try
      statusMessage := Some(EditStep1);
      requests := [EditPromptRequest(baseImage.value, prompt)];
      var outcome := GenerateEditPrompt(content, baseImage.value, prompt);
      if outcome.Success? {
        var descriptivePrompt := outcome.value;
        statusMessage := Some(EditStep2);
        requests := requests + [ImageRequest(descriptivePrompt)];
        outcome := GenerateImage(images, descriptivePrompt);
        if outcome.Success? {
          generatedPhoto := Some(outcome.value);
          editPrompt := "";
        }
      }
      // catch
      if outcome.Failure? {
        errorMessage := Some(EditFailed);
      }
      // finally
      isLoading := false;
      statusMessage := None;
      assert requests == expected.requests;
    }
  }
}
