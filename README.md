# Path tracer front end: edit reconciliation, command line and scene discovery

This project models the decision logic of the path tracer's front end,
`src/Main.cpp`. GLFW, ImGui, ImGuizmo, the renderer and the scene loader are
replaced by their outcomes.

- **Command line** (`main`, lines 426-436). A left-to-right scan takes
  `-s <path>` or `--scene <path>` as the scene file. Any other argument
  beginning with a dash stops it with "Unknown option". Module `CommandLine`:
  the reference meaning is `Scan`, and the index-advancing loop is `ParseArgs`.
- **Scene discovery** (`GetSceneFiles`, lines 80-98). The sorted directory
  listing becomes a sequence of (name, extension) entries. The `.scene`
  entries are kept, prefixed with the assets directory. Module `Discovery`.
- **Screenshot naming** (line 257). Saved frames are named
  `./img_<sample count>.png`. Module `Screenshot`.
- **One pass of the main loop** (lines 247-409 and `Update`, lines 143-171).
  Widgets report "changed" outcomes that are ORed into three flags:
  - `optionsChanged`;
  - `requiresReload`;
  - `objectPropChanged`.

  The flags decide four things:
  - whether the scene's copy of the render options is synced from the staging
    `renderOptions`;
  - whether the renderer is deleted and rebuilt;
  - whether `camera->isMoving` (the accumulation-reset signal) is raised;
  - whether `RebuildInstances` runs.

  Module `RenderState` holds the data model and the reference meaning of a
  frame as functions on a state value.
- **Start-up** (`main`, lines 426-449 and 495): load the scene named on the
  command line, or the first discovered scene, then build the first
  renderer. Module `Startup`.
- **The program itself.** Module `Application` holds class `App`, whose fields
  are the process-wide variables. Its methods (`LoadScene`, `InitRenderer`,
  the widget headers, `Settings`, `Update`, `Frame`, `Run`) update those
  fields step by step. Each method is proved to leave exactly the state the
  matching `RenderState` function describes. `Launch` is proved to agree
  with `Startup.Boot`.

`delete`/`new` of the scene and the renderer are counted (`sceneGeneration`,
`rendererGeneration`). `rendererOptions` records the scene options the
current renderer was built from. `rebuildCount` counts `RebuildInstances`
calls. A loader maps a path and the current staging options to its
outcome: a success flag, the scene, and the options it leaves in
`renderOptions`. `LoadSceneFromFile` writes into the live `renderOptions`
(lines 104 and 441), so an option the file does not set keeps its earlier
value, UI edits included. At start-up the loader is handed the
default-constructed options.

Behaviour of the code a reader might not expect:
- Maximum depth (line 280) and background colour (line 286) are in the
  `optionsChanged` group. They restart accumulation and never rebuild the
  renderer, in any background mode.
- The HDR multiplier (line 282) also restarts accumulation.
- "Unknown option" and a failed direct load end the process with
  `exit(0)`, not with an error status.
- A scene chosen in the combo and a reload-group widget in the same frame
  rebuild the renderer twice.
- A failed load in discovery mode or in the combo is not noticed: the scene
  the loader left behind is used.
- The sample count is only read from the renderer (lines 250 and 257); the
  front end keeps no counter of its own. The denoiser settings are only
  copied into the scene's options (lines 295-296); when they take effect is
  up to the renderer.

## Model

| member | source | states |
|---|---|---|
| CommandLine.Scan | src/Main.cpp:428-436 | A successful scan yields the initial path or one of the arguments. A refusal names a dash-prefixed argument that was given. A missing value is always reported for a scene flag. |
| CommandLine.ParseArgs | src/Main.cpp:426-436 | The index-advancing loop over `argv[1..]` returns exactly `Scan` of the arguments from an empty path. |
| CommandLine.ScanAppend | src/Main.cpp:428-436 | The scan is sequential: a prefix that parses cleanly hands its path on to the rest, and an unknown option in the prefix decides the outcome whatever follows. |
| CommandLine.LastSceneFlagWins | src/Main.cpp:430-431 | A later `-s`/`--scene <path>` overrides any earlier path. |
| CommandLine.PlainArgumentIgnored | src/Main.cpp:428-436 | An argument not starting with `-`, met where an option is expected, changes nothing. |
| CommandLine.UnknownOptionStops | src/Main.cpp:432-435 | Any other dash-prefixed argument ends the scan with "Unknown option", whatever follows it. |
| CommandLine.DanglingSceneFlagRejected | src/Main.cpp:430-431 | A scene flag as the last argument is refused as missing its value. |
| CommandLine.FlagValueIsNeverAnOption | src/Main.cpp:430-431 | The argument after a scene flag is the path even when it starts with a dash; scanning resumes after it. |
| CommandLine.ScanAsWritten | src/Main.cpp:428-436 | The loop as written: a parsed path is the initial one or an argument. A rejection names a dashed argument that is not a scene flag. The null read happens only when the last argument is a scene flag. |
| CommandLine.AsWrittenDiffersOnlyOnDanglingFlag | src/Main.cpp:428-436 | The loop as written reads the null `argv[argc]` exactly on the invocations `Scan` refuses as missing a value, and agrees with `Scan` on every other invocation. |
| CommandLine.DanglingFlagReadsNull | src/Main.cpp:431 | `pathtracer --scene` reaches the unchecked read as written and is refused by the corrected scan. |
| Discovery.ScenePaths | src/Main.cpp:86-95 | Discovery yields no more paths than the listing has entries. |
| Discovery.GetSceneFiles | src/Main.cpp:80-98 | The `push_back` loop over the listing builds exactly `ScenePaths`. |
| Discovery.ScenePathsAppend | src/Main.cpp:86-95 | Filtering distributes over concatenation, so listing order is kept and entries do not influence each other. |
| Discovery.ScenePathsMembership | src/Main.cpp:91-94 | A path is discovered if and only if some entry has extension `scene` and the path is the assets directory followed by that entry's name. |
| Discovery.NothingDiscovered | src/Main.cpp:86-95 | Discovery is empty if and only if no entry has extension `scene`. |
| Discovery.FirstDiscovered | src/Main.cpp:86-95 | The first discovered path comes from the first `.scene` entry of the listing. |
| Screenshot.Digits | src/Main.cpp:257 | `to_string` of a non-negative number is a non-empty string of decimal digits. |
| Screenshot.DigitsRoundTrip | src/Main.cpp:257 | Reading the digits back gives the number. |
| Screenshot.IntToString | src/Main.cpp:257 | `to_string` of an int is non-empty and starts with a minus sign exactly for negative values. Every other character is a decimal digit. |
| Screenshot.ScreenshotName | src/Main.cpp:257 | The name is `./img_`, then the decimal rendering of the sample count, then `.png`. |
| Screenshot.IntToStringInjective | src/Main.cpp:257 | Different sample counts have different decimal renderings, negative ones included. |
| Screenshot.ScreenshotNameInjective | src/Main.cpp:256-257 | Two screenshot names are equal if and only if they were taken at the same sample count. |
| RenderState.LastClicked | src/Main.cpp:328-333 | When some entry was clicked, the selection after the list is a clicked entry in range with no clicked entry after it, that is, the last one clicked. When none was clicked, it is the old selection. |
| RenderState.SelectionInRange | src/Main.cpp:328-333 | Starting from an index in range, the instance list only ever selects an index in range. |
| RenderState.SettingsWindow | src/Main.cpp:247-409 | After the Settings window, `isMoving` equals `optionsChanged`. The scene list is unchanged. The mouse sensitivity is its widget's outcome. One scene is constructed exactly when the combo chose one. |
| RenderState.FrameStep | src/Main.cpp:237-420 | After a pass of the loop, the camera is moving exactly when a reset-group widget changed or the mouse was dragged outside the UI. The scene list is unchanged, and one scene is constructed exactly when the combo chose one. |
| RenderState.FramePreservesValid | src/Main.cpp:247-409 | After a frame the scene's options equal the staging options again, and both selection indices stay in range. |
| RenderState.BeforeObjectsKeepsInstances | src/Main.cpp:272-316 | Nothing between the combo and the Objects header touches the instances, the materials, the selection or the scene list. |
| RenderState.RendererRebuildRule | src/Main.cpp:265-293 | The renderer is rebuilt once for a combo choice, and once more when Render Settings is open and the env-map, RR, RR-depth or constant-background widget changed. A reload-rebuilt renderer sees the final staging options. A combo-only rebuild sees the loaded options. Without a rebuild the renderer's options are unchanged. |
| RenderState.StagingOptionsRule | src/Main.cpp:265-288 | The staging options after a frame are the loaded or previous options, edited by the Render Settings widgets when that header is open. |
| RenderState.IsMovingRule | src/Main.cpp:272-316 | After the Settings window, `isMoving` is set if and only if a widget of the `optionsChanged` group changed, and the scene's options then equal the staging options. After `Update` it is set if and only if that happened or the mouse is dragged outside the UI. |
| RenderState.UpdateOnlyRaisesIsMoving | src/Main.cpp:143-171 | `Update` changes nothing but the moving flag and never lowers it. |
| RenderState.ResetGroupDoesNotReload | src/Main.cpp:278-316 | A maximum-depth or background-colour change restarts accumulation and syncs the options without rebuilding the renderer, in either background mode. |
| RenderState.DenoiserEditsOnlyCopyTwoFields | src/Main.cpp:287-296 | The denoiser widgets copy exactly those two fields into the scene's options, without a rebuild or an `isMoving` raise. |
| RenderState.QuietFrame | src/Main.cpp:247-409 | A frame with no changed widget and no drag only clears `isMoving`. The materials are unchanged whether or not the Objects header is open. The list selection changes only when that header is open. |
| RenderState.RebuildInstancesRule | src/Main.cpp:318-406 | With the Objects header open, `RebuildInstances` runs once exactly when a material widget changed or the edited transform differs from the stored one. The instance list equals the old one with only the selected instance's transform replaced. The material list equals the old one with only the selected instance's material edited by the widgets. |
| RenderState.ObjectsClosedRule | src/Main.cpp:318 | With the Objects header closed, the instances, materials, selection and rebuild count are those the combo left. |
| RenderState.SceneSwitchRule | src/Main.cpp:265-270 | A combo choice replaces the scene with the loaded one, makes its options both copies, resets the selection to 0, and builds one new scene and one renderer from the synced options. |
| RenderState.ReplayPreservesValid | src/Main.cpp:237-420 | Over any run of frames the invariant holds, and the scene, renderer and rebuild counters never decrease. |
| RenderState.QuietLastFrameClearsIsMoving | src/Main.cpp:311-316 | Whatever earlier frames did, a last frame with no reset-group change and no drag leaves `isMoving` lowered. |
| Startup.Boot | src/Main.cpp:426-449 | Start-up either fails or reaches a first state of the main loop. That state satisfies the invariant, with one scene, one renderer built from the staging options, and both selections 0. |
| Startup.BadInvocationLoadsNothing | src/Main.cpp:428-436 | A refused command line ends start-up with that error before any scene is loaded or listed. |
| Startup.DirectLoadRule | src/Main.cpp:438-445 | A non-empty scene path is loaded directly. Start-up continues if and only if the loader succeeds, with that scene and an empty scene list. |
| Startup.DiscoveryRule | src/Main.cpp:446-449 | An empty scene path starts discovery. Start-up continues if and only if a `.scene` entry exists, and then loads the first discovered file. |
| Startup.EmptyDiscoveryIndexesPastEnd | src/Main.cpp:447-448 | The read `sceneFiles[0]` of the discovery branch as written is in bounds if and only if the listing holds a `.scene` entry. |
| Startup.NoSceneFileReadsPastEnd | src/Main.cpp:447-448 | An assets directory holding only a sub-directory makes that read go past the end. |
| Application.App.constructor | src/Main.cpp:438-449 | The fields hold the first scene with synced options and the first renderer, as `Startup.Started` says. |
| Application.App.LoadScene | src/Main.cpp:100-108 | Deletes and creates the scene from the loader, resets the selection and syncs the scene's options, as `RenderState.LoadScene` says. |
| Application.App.InitRenderer | src/Main.cpp:110-116 | Builds a new renderer from the scene's current options. |
| Application.App.EditRenderOptions | src/Main.cpp:276-288 | The Render Settings widgets edit the staging options as `ApplyRenderWidgets` says. The OR-accumulated flags equal the reset-group and reload-group predicates. |
| Application.App.RenderSettings | src/Main.cpp:276-297 | The Render Settings header updates the state as `RenderState.RenderSettings` says and returns its contribution to `optionsChanged`. |
| Application.App.EditMaterial | src/Main.cpp:340-382 | The material widgets edit the material as `ApplyMaterialWidgets` says, and `objectPropChanged` is set exactly when one of them changed. |
| Application.App.ObjectsPanel | src/Main.cpp:318-407 | The list loop, the material edit, the transform compare and the rebuild update the state as `RenderState.ObjectsPanel` says. |
| Application.App.SceneCombo | src/Main.cpp:265-270 | A combo choice loads that file and rebuilds the renderer, as `RenderState.ChooseScene` says. |
| Application.App.SyncOptions | src/Main.cpp:311-316 | Clears `isMoving`, then syncs the options and raises it if `optionsChanged`. |
| Application.App.Settings | src/Main.cpp:247-409 | The Settings window updates the state as `RenderState.SettingsWindow` says and returns the screenshot file requested, if any. |
| Application.App.Update | src/Main.cpp:143-171 | A drag outside the UI raises `isMoving`. Nothing else changes. |
| Application.App.Frame | src/Main.cpp:237-420 | One pass of the loop keeps the invariant and reaches `RenderState.FrameStep`. |
| Application.App.Run | src/Main.cpp:237-420 | The loop over a run of frames keeps the invariant, reaches `RenderState.Replay`, and returns each frame's screenshot request. |
| Application.Launch | src/Main.cpp:426-449 | Given the listing, the loader and the default options, start-up fails exactly as `Startup.Boot` says, or yields a fresh `App` in the first state `Boot` describes, satisfying the invariant. |

## Left out

- GLFW, GL, ImGui and ImGuizmo: windows, event polling, drawing and gizmo manipulation (lines 173-234, 237-246, 411-419, 451-512). Widget outcomes are inputs to a frame.
- Window restore and resize after a combo choice (lines 267-268): windowing calls with no effect on the modelled state.
- Camera math: orientation, radius, strafe, field of view, aperture scaling and the view/projection matrices (lines 152-164, 300-306, 392-393). The camera is reduced to its `isMoving` flag, and the camera sliders to their changed flags.
- Floating point: sliders and colour edits carry `real` values. A transform is compared by its sixteen 32-bit patterns, which is what `memcmp` compares; the matrix decompose/recompose is not modelled.
- Slider ranges: ImGui does not clamp values typed into a slider, and the model does not constrain edited values either.
- `SaveFrame` (lines 118-127): the output buffer, the vertical flip, the PNG writer and the `delete data` on a buffer the renderer owns. Only the requested file name is modelled.
- Renderer construction, `Init`, `Render`, `Present` and `Update`, the sample count (an input to a frame) and `LoadSceneFromFile` parsing. These are outside `src/Main.cpp`. The renderer is a construction counter plus the options it was built from, and the loader is a function parameter.
- The default values of the global `renderOptions` (line 62) are set in a header outside `src/Main.cpp`; they are a parameter of start-up.
- Frame timing (lines 411-414) and `keyPressed` (line 145), which nothing in the core reads.
- The directory listing: `tinydir` lists directories too; an entry is kept only by its extension, as in the source.
- The `emission` material colour (line 341) has no widget, and the anisotropic slider is commented out (line 360). Neither is edited.
- Process exit: "Unknown option", a failed direct load and a missing scene file become `Startup.StartupError` values. The printed message and the exit status 0 are not modelled.
- Application.App.ObjectsPanel: requires a non-empty instance list, a selection in range, and an in-range material id for the instance selected once the list is drawn. These are exactly what the panel indexes (lines 340-407), without checks in the source; out of bounds its behaviour is undefined. Other instances' material ids are not constrained, since the panel never reads them.
- Application.Launch: GL context creation and window set-up between start-up and the first `InitRenderer` (lines 451-495) are not modelled; the first renderer is built straight after the scene is in place.

## Findings

| source | as written | input that shows it | evidently intended | confidence | as-written member | corrected member |
|---|---|---|---|---|---|---|
| src/Main.cpp:431 | `sceneFile = argv[++i]` reads past the last argument when a scene flag comes last, and builds a string from the null `argv[argc]` | `pathtracer --scene` | refuse a scene flag with no value | not executed | CommandLine.DanglingFlagReadsNull | CommandLine.DanglingSceneFlagRejected |
| src/Main.cpp:447-448 | discovery loads `sceneFiles[sampleSceneIndex]` with index 0 even when no `.scene` file was found | an assets directory with no `.scene` entry | stop start-up with "no scene files" | not executed | Startup.EmptyDiscoveryIndexesPastEnd | Startup.DiscoveryRule |
