/** The editor store of lib/store.ts: one mutable record of editor fields and the
    named actions that overwrite them. The image generator is an oracle passed in
    by the caller; it either returns a `GenerateImageResult` or throws. */
module EditorStore {
  import opened Wrappers

  // ---- The state record and the generator's request/result types ----

  /** A snapshot of every data field of the store. `selectedRatio` is a plain
      string: the sidebar stores ratios ("4:3", "3:2", "2.5:1") that the
      `AspectRatio` union does not list. `string | null` fields are `Option<string>`. */
  datatype EditorState = EditorState(
    selectedPlatform: string,
    selectedRatio: string,
    selectedSizeLabel: string,
    prompt: string,
    selectedColor: string,
    selectedTheme: string,
    isGenerating: bool,
    generatedImage: Option<string>,
    isDrawingMode: bool,
    isSketchFullscreenOpen: bool,
    sketchReferenceImage: Option<string>,
    youtubeLink: string,
    uploadedReferenceImage: Option<string>)

  /** The store's initial values. */
  const Initial := EditorState(
    selectedPlatform := "YouTube",
    selectedRatio := "16:9",
    selectedSizeLabel := "Thumbnail",
    prompt := "",
    selectedColor := "#ffffff",
    selectedTheme := "Minimal",
    isGenerating := false,
    generatedImage := None,
    isDrawingMode := false,
    isSketchFullscreenOpen := false,
    sketchReferenceImage := None,
    youtubeLink := "",
    uploadedReferenceImage := None)

  /** What the store sends to the generator (actions/generate.ts `GenerateImageParams`). */
  datatype GenerateImageParams = GenerateImageParams(
    prompt: string, width: int, height: int, style: Option<string>, referenceImage: Option<string>)

  /** What the generator resolves to (actions/generate.ts `GenerateImageResult`). */
  datatype GenerateImageResult = GenerateImageResult(
    success: bool, imageUrl: Option<string>, error: Option<string>)

  /** One call of the generator: it resolves to a result or it throws. */
  datatype GeneratorOutcome = Returned(result: GenerateImageResult) | Threw(reason: string)

  /** JavaScript truthiness of a `string | null | undefined` value. */
  predicate Truthy(v: Option<string>)
  {
    v.Some? && v.value != ""
  }

  // ---- Named fields, for "nothing else changes" ----

  datatype Field =
    | SelectedPlatform | SelectedRatio | SelectedSizeLabel | Prompt | SelectedColor | SelectedTheme
    | IsGenerating | GeneratedImage | IsDrawingMode | IsSketchFullscreenOpen
    | SketchReferenceImage | YoutubeLink | UploadedReferenceImage

  datatype FieldValue = Text(text: string) | Flag(flag: bool) | Image(image: Option<string>)

  /** The value of one field of a snapshot. */
  function Get(s: EditorState, f: Field): FieldValue
  {
    match f
    case SelectedPlatform => Text(s.selectedPlatform)
    case SelectedRatio => Text(s.selectedRatio)
    case SelectedSizeLabel => Text(s.selectedSizeLabel)
    case Prompt => Text(s.prompt)
    case SelectedColor => Text(s.selectedColor)
    case SelectedTheme => Text(s.selectedTheme)
    case IsGenerating => Flag(s.isGenerating)
    case GeneratedImage => Image(s.generatedImage)
    case IsDrawingMode => Flag(s.isDrawingMode)
    case IsSketchFullscreenOpen => Flag(s.isSketchFullscreenOpen)
    case SketchReferenceImage => Image(s.sketchReferenceImage)
    case YoutubeLink => Text(s.youtubeLink)
    case UploadedReferenceImage => Image(s.uploadedReferenceImage)
  }

  /** Two snapshots agree on every field outside `written`. */
  predicate SameOutside(s: EditorState, t: EditorState, written: set<Field>)
  {
    forall f: Field :: f !in written ==> Get(s, f) == Get(t, f)
  }

  // ---- The actions, as transitions of the snapshot ----

  /** One call of a store action. `Generate` stands for a whole `generateImage`
      call whose generator call ended with `outcome`. */
  datatype Action =
    | SetSize(platform: string, ratio: string, sizeLabel: string)
    | SetPrompt(prompt: string)
    | SetColor(color: string)
    | SetTheme(theme: string)
    | Generate(outcome: GeneratorOutcome)
    | ToggleDrawingMode
    | ToggleSketchFullscreen
    | SetSketchReferenceImage(image: Option<string>)
    | SetYoutubeLink(link: string)
    | SetUploadedReferenceImage(image: Option<string>)

  /** The fields each action may write, as declared by its `set(...)` calls. */
  function Writes(a: Action): set<Field>
  {
    match a
    case SetSize(_, _, _) => {SelectedPlatform, SelectedRatio, SelectedSizeLabel}
    case SetPrompt(_) => {Prompt}
    case SetColor(_) => {SelectedColor}
    case SetTheme(_) => {SelectedTheme}
    case Generate(_) => {IsGenerating, GeneratedImage}
    case ToggleDrawingMode => {IsDrawingMode}
    case ToggleSketchFullscreen => {IsSketchFullscreenOpen}
    case SetSketchReferenceImage(_) => {SketchReferenceImage}
    case SetYoutubeLink(_) => {YoutubeLink}
    case SetUploadedReferenceImage(_) => {UploadedReferenceImage}
  }

  /** The reference image of the request: `sketch || uploaded || undefined`. */
  function ReferenceImage(s: EditorState): Option<string>
  {
    FirstTruthy([s.sketchReferenceImage, s.uploadedReferenceImage])
  }

  /** No candidate before position `i` is truthy. */
  predicate NoneTruthyBefore(candidates: seq<Option<string>>, i: int)
  {
    forall j :: 0 <= j < i && j < |candidates| ==> !Truthy(candidates[j])
  }

  /** `c[0] || c[1] || ... || undefined`: the first truthy candidate, if any. */
  function FirstTruthy(candidates: seq<Option<string>>): (r: Option<string>)
    ensures r.Some? <==> exists i :: 0 <= i < |candidates| && Truthy(candidates[i])
    ensures r.Some? ==> Truthy(r)
    ensures r.Some? ==>
      exists i :: 0 <= i < |candidates| && candidates[i] == r && NoneTruthyBefore(candidates, i)
  {
    if candidates == [] then None
    else if Truthy(candidates[0]) then candidates[0]
    else
      var r := FirstTruthy(candidates[1..]);
      assert forall i :: 1 <= i < |candidates| ==> candidates[i] == candidates[1..][i - 1];
      r
  }

  /** The request `generateImage` builds from a snapshot. */
  function BuildRequest(s: EditorState): GenerateImageParams
  {
    GenerateImageParams(s.prompt, 1024, 1024, Some(s.selectedTheme), ReferenceImage(s))
  }

  /** What follows the generator call: keep the URL only on a truthy success,
      then, in every case, clear `isGenerating`. */
  function FinishGeneration(s: EditorState, outcome: GeneratorOutcome): EditorState
  {
    var image :=
      if outcome.Returned? && outcome.result.success && Truthy(outcome.result.imageUrl)
      then outcome.result.imageUrl
      else s.generatedImage;
    s.(generatedImage := image, isGenerating := false)
  }

  /** The state after one action. */
  function Apply(s: EditorState, a: Action): EditorState
  {
    match a
    case SetSize(platform, ratio, sizeLabel) =>
      s.(selectedPlatform := platform, selectedRatio := ratio, selectedSizeLabel := sizeLabel)
    case SetPrompt(prompt) => s.(prompt := prompt)
    case SetColor(color) => s.(selectedColor := color)
    case SetTheme(theme) => s.(selectedTheme := theme)
    case Generate(outcome) => FinishGeneration(s.(isGenerating := true), outcome)
    case ToggleDrawingMode => s.(isDrawingMode := !s.isDrawingMode)
    case ToggleSketchFullscreen => s.(isSketchFullscreenOpen := !s.isSketchFullscreenOpen)
    case SetSketchReferenceImage(image) => s.(sketchReferenceImage := image)
    case SetYoutubeLink(link) => s.(youtubeLink := link)
    case SetUploadedReferenceImage(image) => s.(uploadedReferenceImage := image)
  }

  /** The state after a sequence of actions, applied in order. */
  function Run(s: EditorState, actions: seq<Action>): EditorState
    decreases |actions|
  {
    if actions == [] then s else Run(Apply(s, actions[0]), actions[1..])
  }

  // ---- Properties of the actions ----

  /** No action changes a field outside its declared writes. */
  lemma ApplyFrame(s: EditorState, a: Action)
    ensures SameOutside(s, Apply(s, a), Writes(a))
  {
  }

  /** `setSize` writes the platform, ratio and label it is given, all three together. */
  lemma SetSizeWritesAll(s: EditorState, platform: string, ratio: string, sizeLabel: string)
    ensures var t := Apply(s, SetSize(platform, ratio, sizeLabel));
      Get(t, SelectedPlatform) == Text(platform) && Get(t, SelectedRatio) == Text(ratio)
      && Get(t, SelectedSizeLabel) == Text(sizeLabel)
  {
  }

  /** Each single-field setter leaves its argument in its one field. */
  lemma SetterWritesValue(s: EditorState, a: Action)
    requires !a.SetSize? && !a.Generate? && !a.ToggleDrawingMode? && !a.ToggleSketchFullscreen?
    ensures Writes(a) == {SetterField(a)}
    ensures Get(Apply(s, a), SetterField(a)) == SetterValue(a)
  {
  }

  /** The field of a single-field setter. */
  function SetterField(a: Action): Field
    requires !a.SetSize? && !a.Generate? && !a.ToggleDrawingMode? && !a.ToggleSketchFullscreen?
  {
    match a
    case SetPrompt(_) => Prompt
    case SetColor(_) => SelectedColor
    case SetTheme(_) => SelectedTheme
    case SetSketchReferenceImage(_) => SketchReferenceImage
    case SetYoutubeLink(_) => YoutubeLink
    case SetUploadedReferenceImage(_) => UploadedReferenceImage
  }

  /** The argument of a single-field setter. */
  function SetterValue(a: Action): FieldValue
    requires !a.SetSize? && !a.Generate? && !a.ToggleDrawingMode? && !a.ToggleSketchFullscreen?
  {
    match a
    case SetPrompt(prompt) => Text(prompt)
    case SetColor(color) => Text(color)
    case SetTheme(theme) => Text(theme)
    case SetSketchReferenceImage(image) => Image(image)
    case SetYoutubeLink(link) => Text(link)
    case SetUploadedReferenceImage(image) => Image(image)
  }

  /** Setting the same values twice is setting them once. */
  lemma SettersIdempotent(s: EditorState, a: Action)
    requires !a.Generate? && !a.ToggleDrawingMode? && !a.ToggleSketchFullscreen?
    ensures Apply(Apply(s, a), a) == Apply(s, a)
  {
  }

  /** A toggle applied twice restores the state; applied once it flips its flag. */
  lemma TogglesInvolutive(s: EditorState, a: Action)
    requires a.ToggleDrawingMode? || a.ToggleSketchFullscreen?
    ensures Apply(Apply(s, a), a) == s
    ensures Apply(s, a) != s
  {
  }

  /** The reference image follows the priority sketch, then upload, then none;
      an empty string counts as absent. */
  lemma ReferenceImagePriority(s: EditorState)
    ensures Truthy(s.sketchReferenceImage) ==> ReferenceImage(s) == s.sketchReferenceImage
    ensures !Truthy(s.sketchReferenceImage) && Truthy(s.uploadedReferenceImage)
      ==> ReferenceImage(s) == s.uploadedReferenceImage
    ensures !Truthy(s.sketchReferenceImage) && !Truthy(s.uploadedReferenceImage)
      ==> ReferenceImage(s) == None
  {
    var c := [s.sketchReferenceImage, s.uploadedReferenceImage];
    assert c[1..] == [s.uploadedReferenceImage];
    assert c[1..][1..] == [];
    if !Truthy(s.sketchReferenceImage) {
      assert FirstTruthy(c) == FirstTruthy([s.uploadedReferenceImage]);
      if !Truthy(s.uploadedReferenceImage) {
        assert FirstTruthy([s.uploadedReferenceImage]) == FirstTruthy([]);
      }
    }
  }

  /** The request carries the prompt unchanged, a fixed 1024x1024 size, the theme as
      style, and a reference image only when one of the two references is non-empty.
      It depends on nothing else in the store (in particular not on the selected size). */
  lemma RequestContents(s: EditorState, t: EditorState)
    ensures BuildRequest(s).prompt == s.prompt && BuildRequest(s).style == Some(s.selectedTheme)
    ensures BuildRequest(s).width == 1024 && BuildRequest(s).height == 1024
    ensures BuildRequest(s).referenceImage.Some? <==>
      Truthy(s.sketchReferenceImage) || Truthy(s.uploadedReferenceImage)
    ensures s.prompt == t.prompt && s.selectedTheme == t.selectedTheme
      && s.sketchReferenceImage == t.sketchReferenceImage
      && s.uploadedReferenceImage == t.uploadedReferenceImage
      ==> BuildRequest(s) == BuildRequest(t)
  {
    ReferenceImagePriority(s);
  }

  /** After a `generateImage` call `isGenerating` is false whatever the generator did;
      the image becomes the returned URL exactly on a success with a non-empty URL,
      and stays as it was on a failure result or a throw. */
  lemma GenerateOutcomes(s: EditorState, outcome: GeneratorOutcome)
    ensures !Apply(s, Generate(outcome)).isGenerating
    ensures outcome.Returned? && outcome.result.success && Truthy(outcome.result.imageUrl)
      ==> Apply(s, Generate(outcome)).generatedImage == outcome.result.imageUrl
    ensures outcome.Threw? || !outcome.result.success || !Truthy(outcome.result.imageUrl)
      ==> Apply(s, Generate(outcome)).generatedImage == s.generatedImage
    ensures Apply(s, Generate(outcome)).generatedImage != s.generatedImage
      ==> Truthy(Apply(s, Generate(outcome)).generatedImage)
  {
  }

  /** The store is idle before and after every whole action: a run of actions
      from an idle state ends idle. */
  lemma {:induction false} RunStaysIdle(s: EditorState, actions: seq<Action>)
    requires !s.isGenerating
    ensures !Run(s, actions).isGenerating
    decreases |actions|
  {
    if actions != [] {
      RunStaysIdle(Apply(s, actions[0]), actions[1..]);
    }
  }

  /** A run of actions none of which is a `generateImage` call leaves the generated
      image as it was: only the generator can change what the canvas shows. */
  lemma {:induction false} RunKeepsImage(s: EditorState, actions: seq<Action>)
    requires forall i :: 0 <= i < |actions| ==> !actions[i].Generate?
    ensures Run(s, actions).generatedImage == s.generatedImage
    decreases |actions|
  {
    if actions != [] {
      RunKeepsImage(Apply(s, actions[0]), actions[1..]);
    }
  }

  // ---- The image generator ----

  /** The server action `generateImageAction`, seen from the store: a call with a
      request resolves to `respond(request)`. A call is only made while the store
      that makes it shows the busy flag. */
  class Generator {
    const respond: GenerateImageParams -> GeneratorOutcome

    constructor (respond: GenerateImageParams -> GeneratorOutcome)
      ensures this.respond == respond
    {
      this.respond := respond;
    }

    /** One awaited call on behalf of `store`. */
    method Call(store: Store, request: GenerateImageParams) returns (outcome: GeneratorOutcome)
      requires store.isGenerating
      ensures outcome == respond(request)
    {
      outcome := respond(request);
    }
  }

  // ---- The store object ----

  /** The live store. Each method overwrites the fields its action writes. */
  class Store {
    var selectedPlatform: string
    var selectedRatio: string
    var selectedSizeLabel: string
    var prompt: string
    var selectedColor: string
    var selectedTheme: string
    var isGenerating: bool
    var generatedImage: Option<string>
    var isDrawingMode: bool
    var isSketchFullscreenOpen: bool
    var sketchReferenceImage: Option<string>
    var youtubeLink: string
    var uploadedReferenceImage: Option<string>

    /** `useEditorStore.getState()`. */
    function Snapshot(): EditorState
      reads this
    {
      EditorState(selectedPlatform, selectedRatio, selectedSizeLabel, prompt, selectedColor,
        selectedTheme, isGenerating, generatedImage, isDrawingMode, isSketchFullscreenOpen,
        sketchReferenceImage, youtubeLink, uploadedReferenceImage)
    }

    /** The store created with its initial values. */
    constructor ()
      ensures Snapshot() == Initial
    {
      selectedPlatform, selectedRatio, selectedSizeLabel := "YouTube", "16:9", "Thumbnail";
      prompt, selectedColor, selectedTheme := "", "#ffffff", "Minimal";
      isGenerating, generatedImage, isDrawingMode := false, None, false;
      isSketchFullscreenOpen, sketchReferenceImage := false, None;
      youtubeLink, uploadedReferenceImage := "", None;
    }

    method SetSize(platform: string, ratio: string, sizeLabel: string)
      modifies this
      ensures Snapshot() == Apply(old(Snapshot()), Action.SetSize(platform, ratio, sizeLabel))
    {
      selectedPlatform, selectedRatio, selectedSizeLabel := platform, ratio, sizeLabel;
    }

    method SetPrompt(p: string)
      modifies this
      ensures Snapshot() == Apply(old(Snapshot()), Action.SetPrompt(p))
    {
      prompt := p;
    }

    method SetColor(color: string)
      modifies this
      ensures Snapshot() == Apply(old(Snapshot()), Action.SetColor(color))
    {
      selectedColor := color;
    }

    method SetTheme(theme: string)
      modifies this
      ensures Snapshot() == Apply(old(Snapshot()), Action.SetTheme(theme))
    {
      selectedTheme := theme;
    }

    method ToggleDrawingMode()
      modifies this
      ensures Snapshot() == Apply(old(Snapshot()), Action.ToggleDrawingMode)
    {
      isDrawingMode := !isDrawingMode;
    }

    method ToggleSketchFullscreen()
      modifies this
      ensures Snapshot() == Apply(old(Snapshot()), Action.ToggleSketchFullscreen)
    {
      isSketchFullscreenOpen := !isSketchFullscreenOpen;
    }

    method SetSketchReferenceImage(image: Option<string>)
      modifies this
      ensures Snapshot() == Apply(old(Snapshot()), Action.SetSketchReferenceImage(image))
    {
      sketchReferenceImage := image;
    }

    method SetYoutubeLink(link: string)
      modifies this
      ensures Snapshot() == Apply(old(Snapshot()), Action.SetYoutubeLink(link))
    {
      youtubeLink := link;
    }

    method SetUploadedReferenceImage(image: Option<string>)
      modifies this
      ensures Snapshot() == Apply(old(Snapshot()), Action.SetUploadedReferenceImage(image))
    {
      uploadedReferenceImage := image;
    }

    /** `generateImage`: raise the flag, build the request from the current state,
        call the generator (which demands the raised flag), keep a returned URL on
        success, and clear the flag on every path. */
    method GenerateImage(generator: Generator)
      modifies this
      ensures Snapshot() == Apply(old(Snapshot()), Generate(generator.respond(BuildRequest(old(Snapshot())))))
    {
      isGenerating := true;
      var state := Snapshot();
      var params := BuildRequest(state);
      var outcome := generator.Call(this, params);
      match outcome {
        case Returned(result) =>
          if result.success && Truthy(result.imageUrl) {
            generatedImage := result.imageUrl;
          }
        case Threw(_) =>
      }
      isGenerating := false;
    }
  }
}
