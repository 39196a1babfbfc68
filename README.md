# Cover-page editor: store, preset sidebar, zoom and platform catalog

This project models the core of an editor for AI-generated cover images, written in Dafny.
The core has four parts:

- **The editor store** (`lib/store.ts`). A single mutable record that holds:
  - the selected platform, ratio and size label;
  - the prompt, colour and theme;
  - the generation flag and the generated image;
  - the drawing-mode and full-screen-sketch flags;
  - the two reference images and the YouTube link.

  Its actions overwrite these fields. `generateImage` raises the busy flag, builds a request, awaits the image generator, keeps the returned URL on a truthy success, and clears the flag on every path.
- **The preset sidebar** (`components/editor/Sidebar.tsx`). It has an inline list of 9 platform groups with 49 size presets. A search box narrows the list case-insensitively, by entry label or by group category, and drops groups left empty. A button is highlighted when the store's platform and label are its own. Clicking a button calls `setSize(category, ratio, label)`.
- **The canvas zoom** (`components/editor/Canvas.tsx`). A percentage that starts at 100. Zoom out does `max(10, z - 10)` and zoom in does `min(200, z + 10)`.
- **The platform catalog** (`lib/constants.ts`). `PLATFORMS_DATA` is the same 9 groups and 49 presets as a shared constant.

Modules:

- `Wrappers`: `Option`, standing for `string | null`.
- `Catalog`: the catalog and its well-formedness:
  - categories in order and distinct;
  - groups non-empty;
  - labels distinct across the whole catalog;
  - every size of the form `<width>x<height>` with both numbers positive.
- `AsciiText`: `toLowerCase` and `includes` on strings.
- `EditorStore`:
  - the state record `EditorState` and its initial value;
  - each action as a transition `Apply`, with frame, idempotence, involution, request and outcome lemmas;
  - the class `Store`, whose methods are each proved to perform exactly that transition on its fields.
- `Sidebar`: the sidebar's own list (proved equal to the catalog), the search, the highlighted button and the click.
- `CanvasZoom`: the zoom updates, the `ZoomControl` class and the lemmas about reachable zoom levels.

The image generator is a `Generator` object passed to `Store.GenerateImage`. Its `respond` function maps a request to an outcome: either a returned `GenerateImageResult` or a thrown error. Its `Call` method may only be called while the calling store shows the busy flag, so Dafny checks at the call site that `generateImage` raised the flag first.

Some descriptions of this application give the store a token balance, a design history, a face reference, stored width and height, and a `setSize` that derives the platform from the label. `lib/store.ts` has none of these. Its `setSize` takes the platform, ratio and label as three arguments. The model follows the code.

## Model

| member | source | states |
|---|---|---|
| EditorStore.Store.constructor | lib/store.ts:43-54 | the new store holds the initial values: platform "YouTube", ratio "16:9", label "Thumbnail", empty prompt, colour "#ffffff", theme "Minimal", not generating, no image, drawing mode off; the initialisers at lines 111-112 and 116-117 (sketch closed, no sketch, empty link, no upload) are included |
| EditorStore.Store.SetSize | lib/store.ts:56-60 | the platform, ratio and label become the three arguments; every other field is unchanged |
| EditorStore.Store.SetPrompt | lib/store.ts:62 | the prompt becomes the argument; every other field is unchanged |
| EditorStore.Store.SetColor | lib/store.ts:64 | the colour becomes the argument; every other field is unchanged |
| EditorStore.Store.SetTheme | lib/store.ts:66 | the theme becomes the argument; every other field is unchanged |
| EditorStore.Store.ToggleDrawingMode | lib/store.ts:109 | drawing mode is negated; every other field is unchanged |
| EditorStore.Store.ToggleSketchFullscreen | lib/store.ts:113 | the full-screen-sketch flag is negated; every other field is unchanged |
| EditorStore.Store.SetSketchReferenceImage | lib/store.ts:114 | the sketch reference becomes the argument (possibly null); every other field is unchanged |
| EditorStore.Store.SetYoutubeLink | lib/store.ts:118 | the link becomes the argument; every other field is unchanged |
| EditorStore.Store.SetUploadedReferenceImage | lib/store.ts:119 | the uploaded reference becomes the argument (possibly null); every other field is unchanged |
| EditorStore.Store.GenerateImage | lib/store.ts:68-107 | the generator is called only after the flag is raised (checked by `Generator.Call`'s precondition); it receives the request built from the state at the call; afterwards the state is the `Generate` transition of the generator's response to that request |
| EditorStore.Generator.Call | lib/store.ts:89-95 | a generator call is allowed only while the calling store shows `isGenerating`, and it resolves to the generator's response to the request |
| EditorStore.Apply | lib/store.ts:56-119 | each action as a transition of the state; defined by its body; constrained by `ApplyFrame`, `SetSizeWritesAll`, `SetterWritesValue`, `SettersIdempotent`, `TogglesInvolutive` and `GenerateOutcomes` |
| EditorStore.ReferenceImage | lib/store.ts:94 | `sketch or upload or undefined`; defined by its body; its meaning is stated by `ReferenceImagePriority` |
| EditorStore.BuildRequest | lib/store.ts:89-95 | the request sent to the generator; defined by its body; its contents are stated by `RequestContents` |
| EditorStore.FinishGeneration | lib/store.ts:97-106 | the image update and the flag reset after the generator call; defined by its body; its meaning is stated by `GenerateOutcomes` |
| EditorStore.ApplyFrame | lib/store.ts:56-119 | no action changes any field outside the ones its `set` call names |
| EditorStore.SetSizeWritesAll | lib/store.ts:56-60 | `setSize` writes platform, ratio and label together, each to its own argument |
| EditorStore.SetterWritesValue | lib/store.ts:62-119 | each single-field setter writes exactly one field, and that field then holds its argument |
| EditorStore.SettersIdempotent | lib/store.ts:56-119 | repeating any setter with the same arguments changes nothing further |
| EditorStore.TogglesInvolutive | lib/store.ts:109-113 | each toggle changes the state, and applying it twice restores the original state |
| EditorStore.FirstTruthy | lib/store.ts:94 | `sketch or upload or undefined` in JavaScript truthiness: the result is present iff some candidate is a non-empty string; when present it is non-empty and is the first such candidate |
| EditorStore.ReferenceImagePriority | lib/store.ts:94 | the reference image is the sketch if non-empty, else the upload if non-empty, else absent |
| EditorStore.RequestContents | lib/store.ts:89-95 | the request carries the prompt, width and height 1024, the theme as style, and a reference iff one of the two references is non-empty; states that agree on these four fields build the same request |
| EditorStore.GenerateOutcomes | lib/store.ts:97-106 | after a call the flag is false on every path, including a throw; the image becomes the URL exactly on a success with a non-empty URL; otherwise the image is kept; a changed image is always non-empty |
| EditorStore.RunStaysIdle | lib/store.ts:104-106 | any series of whole actions from an idle state ends idle |
| EditorStore.RunKeepsImage | lib/store.ts:97-98 | a series of actions with no `generateImage` leaves the generated image as it was |
| Sidebar.SidebarListIsCatalog | components/editor/Sidebar.tsx:26-139 | the sidebar's inline list equals `PLATFORMS_DATA` in categories, labels, sizes, ratios and order |
| Sidebar.FilterTypes | components/editor/Sidebar.tsx:143-146 | the kept entries of a group are exactly the entries that match the query, every copy of each (multiplicities as in the input), kept in their original order |
| Sidebar.Matches | components/editor/Sidebar.tsx:143-146 | the search test for one button; defined by its body; constrained by `CategoryMatchKeepsAll` and `FilterTypesCaseInsensitive` |
| Sidebar.FilteredPlatforms | components/editor/Sidebar.tsx:141-147 | map each group to its kept entries, then drop empty groups; defined by its body; its meaning is stated by `FilteredIsNarrowing`, `FilteredShowsMatches`, `NoPlatformsFound`, `CategoryMatchShowsGroup`, `EmptyQueryShowsAll` and `SearchCaseInsensitive` |
| Sidebar.IsActive | components/editor/Sidebar.tsx:174 | the highlight test; defined by its body; constrained by `ActiveEntryUnique`, `ClickSelectsExactly` and `InitialNothingActive` |
| Sidebar.FilteredIsNarrowing | components/editor/Sidebar.tsx:141-147 | every shown group has at least one entry; every shown entry matches; the shown list is the original with groups and entries removed and order kept |
| Sidebar.FilteredShowsMatches | components/editor/Sidebar.tsx:141-147 | a (category, entry) pair is shown iff the full list has it and it matches the query |
| Sidebar.NoPlatformsFound | components/editor/Sidebar.tsx:200-204 | "No platforms found." appears iff no entry of the list matches the query |
| Sidebar.CategoryMatchKeepsAll | components/editor/Sidebar.tsx:145 | when the category contains the query, the group keeps all its entries |
| Sidebar.CategoryMatchShowsGroup | components/editor/Sidebar.tsx:141-147 | a non-empty group whose category contains the query is shown whole |
| Sidebar.EmptyQueryShowsAll | components/editor/Sidebar.tsx:141-147 | with an empty query, a list of non-empty groups is shown unchanged |
| Sidebar.EmptySearchShowsCatalog | components/editor/Sidebar.tsx:24 | with the initial empty search box, the sidebar shows the whole catalog |
| Sidebar.FilterTypesCaseInsensitive | components/editor/Sidebar.tsx:144-145 | queries that lower-case alike keep the same entries of a group |
| Sidebar.SearchCaseInsensitive | components/editor/Sidebar.tsx:144-145 | queries that lower-case alike show the same list, and a query shows what its lower-cased form shows |
| Sidebar.ActiveEntryUnique | components/editor/Sidebar.tsx:174 | in any store state, at most one button of the sidebar is highlighted |
| Sidebar.ClickSelectsExactly | components/editor/Sidebar.tsx:184 | after a button's `setSize`, that button is highlighted and no other is |
| Sidebar.InitialNothingActive | components/editor/Sidebar.tsx:174 | in the initial store state no button is highlighted, since "YouTube" is not a category |
| Sidebar.ClickPreset | components/editor/Sidebar.tsx:184 | the click performs `setSize(category, ratio, label)` on the store and leaves that button highlighted |
| AsciiText.LowerChar | components/editor/Sidebar.tsx:144-145 | the result is never a capital; capitals map to their small letters; every other character is unchanged |
| AsciiText.Lower | components/editor/Sidebar.tsx:144-145 | `toLowerCase`, character by character; defined by its body; constrained by `LowerChar` and `LowerIdempotent` |
| AsciiText.Includes | components/editor/Sidebar.tsx:144-145 | `includes`, scanning start positions left to right; defined by its body; its meaning is stated by `IncludesOccurs` and `IncludesEmpty` |
| AsciiText.LowerIdempotent | components/editor/Sidebar.tsx:144-145 | lower-casing twice equals lower-casing once |
| AsciiText.IncludesOccurs | components/editor/Sidebar.tsx:144-145 | `includes` is true iff the needle occurs at some position of the haystack |
| AsciiText.IncludesEmpty | components/editor/Sidebar.tsx:144-145 | every string includes the empty string |
| CanvasZoom.ZoomControl.constructor | components/editor/Canvas.tsx:12 | the zoom starts at 100, a valid level |
| CanvasZoom.ZoomControl.ZoomOut | components/editor/Canvas.tsx:260 | the zoom becomes `ZoomedOut` of the old zoom, and the control's valid-level invariant is kept |
| CanvasZoom.ZoomControl.ZoomIn | components/editor/Canvas.tsx:264 | the zoom becomes `ZoomedIn` of the old zoom, and the control's valid-level invariant is kept |
| CanvasZoom.ZoomedOut | components/editor/Canvas.tsx:260 | the result is at least 10 and no more than one step below the input; it is either exactly one step below or exactly 10 |
| CanvasZoom.ZoomedIn | components/editor/Canvas.tsx:264 | the result is at most 200 and no more than one step above the input; it is either exactly one step above or exactly 200 |
| CanvasZoom.InitialZoomValid | components/editor/Canvas.tsx:12 | 100 lies in [10, 200] on the 10-point grid |
| CanvasZoom.ClickKeepsValid | components/editor/Canvas.tsx:260-264 | from a valid level each button yields a valid level, moving by at most one step in its own direction |
| CanvasZoom.NoOpExactlyAtBounds | components/editor/Canvas.tsx:260-264 | zoom in leaves the level unchanged iff it is 200; zoom out leaves it unchanged iff it is 10 |
| CanvasZoom.ZoomRoundTrips | components/editor/Canvas.tsx:260-264 | in then out returns to z for 10 <= z <= 190; out then in returns to z for 20 <= z <= 200 |
| CanvasZoom.ClicksKeepValid | components/editor/Canvas.tsx:260-264 | any series of clicks from a valid level ends on a valid, positive level, so the counter-scale `100 / zoom` is defined |
| CanvasZoom.RepeatedZoomIn | components/editor/Canvas.tsx:264 | n zoom-in clicks give z + 10n, capped at 200 |
| CanvasZoom.RepeatedZoomOut | components/editor/Canvas.tsx:260 | n zoom-out clicks give z - 10n, floored at 10 |
| CanvasZoom.ReachableExactlyValid | components/editor/Canvas.tsx:12-264 | the levels reachable from 100 are exactly the multiples of 10 in [10, 200] |
| Catalog.CatalogCategories | lib/constants.ts:14-127 | the nine categories, in order, are Video & Streaming through Other / Creative |
| Catalog.CatalogCategoriesDistinct | lib/constants.ts:14-127 | no two groups share a category |
| Catalog.CatalogGroupsNonEmpty | lib/constants.ts:14-127 | every group has at least one preset, and there are 49 presets in all |
| Catalog.CatalogLabelsDistinct | lib/constants.ts:14-127 | no two presets of the whole catalog share a label |
| Catalog.CatalogSizesWellFormed | lib/constants.ts:14-127 | every size string is `<digits>x<digits>` with both numbers positive |
| Catalog.SizeScanSound | lib/constants.ts:14-127 | the character-by-character size check accepts only `<width>x<height>` strings with positive width and height |
| Catalog.AllEntriesMembership | lib/constants.ts:14-127 | a preset is in the flattened catalog iff some group lists it |
| Catalog.LabelDetermines | components/editor/Sidebar.tsx:174 | in a list with distinct labels, equal labels mean the same preset |
| Catalog.CategoryDetermines | components/editor/Sidebar.tsx:174 | in a list with distinct categories, equal categories mean the same group |

## Left out

- The body of `generateImageAction` (actions/generate.ts) is not part of this model. It waits 2.5 seconds and returns a random mock URL. The generator is instead an arbitrary `Generator` passed to `Store.GenerateImage`.
- Store.GenerateImage: models the call as one step. The source awaits the generator, and other actions, or a second `generateImage`, may run while it waits. Its final `set` still writes only the image and the flag, as `ApplyFrame` states. Interleavings are not modelled.
- The `console.log` and `console.error` calls, and the network delay.
- AsciiText.LowerChar: lower-cases ASCII letters only. JavaScript's `toLowerCase` also maps non-ASCII letters. Every catalog label and category is ASCII, so only non-ASCII letters in the query behave differently.
- The `AspectRatio` union and the `as AspectRatio` cast at the click. The catalog uses ratios outside the union ("4:3", "3:2", "2.5:1"), so the model stores the ratio as a plain string, as the running code does.
- Icons, colour classes, JSX layout, hover effects, and the "Request a Platform" button.
- Canvas drawing with mouse events, the sketch overlay, `getAspectRatio`, and the floating-point `scale(zoom / 100)`. The model proves only that `zoom` stays positive.
- `tokens`, `nextDesign` and `prevDesign`. Canvas.tsx reads these from the store, but lib/store.ts does not define them.
- A token balance, a design history and its restore, and a face reference. These appear in descriptions of the application but not in lib/store.ts.
- PromptPanel.tsx, RightPanel.tsx, SketchFullscreen.tsx, HistoryPanel.tsx, the pages and the header. These are not part of this model beyond the store actions they call.
