/** The state the path tracer's front end keeps in process-wide variables
    (src/Main.cpp:60-69) and the reference meaning of one pass of its main
    loop: the "Settings" window (lines 247-409) followed by `Update`
    (lines 143-171). Widgets, the loader and the renderer are replaced by
    their outcomes; `delete`/`new` of the scene and of the renderer are
    counted. */
module RenderState {
  import opened Common
  import Screenshot

  datatype Color = Color(r: real, g: real, b: real)

  /** The render options Main.cpp reads or edits. The staging copy lives in
      the global `renderOptions`; the scene holds a second copy. */
  datatype RenderOptions = RenderOptions(
    width: int, height: int,
    maxDepth: int,
    useEnvMap: bool,
    hdrMultiplier: real,
    enableRR: bool,
    rrDepth: int,
    useConstantBg: bool,
    bgColor: Color,
    enableDenoiser: bool,
    denoiserFrameCnt: int)

  /** The material parameters the Objects panel shows (emission is looked up
      but has no widget). */
  datatype Material = Material(
    albedo: Color, emission: Color, extinction: Color,
    metallic: real, roughness: real, specular: real, specularTint: real,
    subsurface: real, sheen: real, sheenTint: real, clearcoat: real,
    clearcoatGloss: real, transmission: real, ior: real, atDistance: real)

  /** A 4x4 float matrix as the bit patterns of its 16 floats: `memcmp`
      reports a difference exactly when some bit pattern differs. */
  datatype Transform = Transform(bits: seq<bv32>)

  datatype MeshInstance = MeshInstance(name: string, transform: Transform, materialID: int)

  /** `isMoving` tells the renderer to restart accumulation. */
  datatype Camera = Camera(isMoving: bool)

  datatype Scene = Scene(
    options: RenderOptions,
    camera: Camera,
    instances: seq<MeshInstance>,
    materials: seq<Material>)

  /** What `LoadSceneFromFile` leaves behind: whether it succeeded, the scene
      it filled in and the render options it wrote into `renderOptions`. */
  datatype LoadOutcome = LoadOutcome(ok: bool, scene: Scene, options: RenderOptions)

  /** `LoadSceneFromFile(path, scene, renderOptions)`: the loader writes into
      the live staging options it is handed, so options the file does not set
      keep the value they had, edits made in the UI included. */
  type Loader = (string, RenderOptions) -> LoadOutcome

  /** The process-wide state. `sceneGeneration` and `rendererGeneration`
      count the scenes and renderers constructed; `rendererOptions` are the
      scene's options at the moment the current renderer was constructed;
      `rebuildCount` counts calls of `RebuildInstances`. */
  datatype AppState = AppState(
    staging: RenderOptions,
    scene: Scene,
    mouseSensitivity: real,
    sceneFiles: seq<string>,
    sampleSceneIndex: nat,
    selectedInstance: nat,
    sceneGeneration: nat,
    rendererGeneration: nat,
    rendererOptions: RenderOptions,
    rebuildCount: nat)

  /** The invariant kept between frames: the two copies of the render
      options agree, and both selection indices are in range (or 0 when
      there is nothing to select). */
  predicate Valid(s: AppState)
  {
    && s.scene.options == s.staging
    && (s.selectedInstance < |s.scene.instances| || s.selectedInstance == 0)
    && (s.sampleSceneIndex < |s.sceneFiles| || s.sampleSceneIndex == 0)
  }

  // ---------------------------------------------------------------------
  // One frame's widget outcomes

  /** The "Render Settings" header. Checkboxes report a click, which flips
      the option; sliders and the colour editor report a new value. */
  datatype RenderWidgets = RenderWidgets(
    maxDepth: Widget<int>,
    toggleEnvMap: bool,
    hdrMultiplier: Widget<real>,
    toggleRR: bool,
    rrDepth: Widget<int>,
    toggleConstantBg: bool,
    bgColor: Widget<Color>,
    toggleDenoiser: bool,
    denoiserFrameCnt: Widget<int>)

  /** The "Camera" header: whether each slider was moved. */
  datatype CameraWidgets = CameraWidgets(fov: bool, aperture: bool, focalDist: bool)

  datatype MaterialWidgets = MaterialWidgets(
    albedo: Widget<Color>, metallic: Widget<real>, roughness: Widget<real>,
    specular: Widget<real>, specularTint: Widget<real>, subsurface: Widget<real>,
    sheen: Widget<real>, sheenTint: Widget<real>, clearcoat: Widget<real>,
    clearcoatGloss: Widget<real>, transmission: Widget<real>, ior: Widget<real>,
    atDistance: Widget<real>, extinction: Widget<Color>)

  /** The "Objects" header: which list entries were clicked, the material
      widgets, and the selected instance's transform after the gizmo and the
      translate/rotate/scale fields have edited a copy of it. */
  datatype ObjectWidgets = ObjectWidgets(clicked: seq<bool>, material: MaterialWidgets, gizmo: Transform)

  /** The mouse as `Update` queries it. */
  datatype MouseState = MouseState(windowFocused: bool, anyDown: bool, overGizmo: bool)

  datatype FrameInput = FrameInput(
    saveScreenshot: bool,
    sampleCount: int,
    sceneChoice: Option<nat>,
    mouseSensitivity: Widget<real>,
    renderOpen: bool,
    render: RenderWidgets,
    cameraOpen: bool,
    camera: CameraWidgets,
    objectsOpen: bool,
    objects: ObjectWidgets,
    mouse: MouseState)

  // ---------------------------------------------------------------------
  // Classification of the widget outcomes

  /** `requiresReload`: a widget whose change rebuilds the renderer. */
  predicate RequiresReload(w: RenderWidgets)
  {
    w.toggleEnvMap || w.toggleRR || w.rrDepth.Changed? || w.toggleConstantBg
  }

  /** The Render Settings widgets that feed `optionsChanged`. */
  predicate RenderOptionsChanged(w: RenderWidgets)
  {
    w.maxDepth.Changed? || w.hdrMultiplier.Changed? || w.bgColor.Changed?
  }

  predicate CameraChanged(c: CameraWidgets)
  {
    c.fov || c.aperture || c.focalDist
  }

  /** `optionsChanged`: a widget whose change restarts accumulation. Widgets
      under a closed header are not drawn and report nothing. */
  predicate OptionsChanged(f: FrameInput)
  {
    || f.mouseSensitivity.Changed?
    || (f.renderOpen && RenderOptionsChanged(f.render))
    || (f.cameraOpen && CameraChanged(f.camera))
  }

  predicate MaterialChanged(m: MaterialWidgets)
  {
    || m.albedo.Changed? || m.metallic.Changed? || m.roughness.Changed?
    || m.specular.Changed? || m.specularTint.Changed? || m.subsurface.Changed?
    || m.sheen.Changed? || m.sheenTint.Changed? || m.clearcoat.Changed?
    || m.clearcoatGloss.Changed? || m.transmission.Changed? || m.ior.Changed?
    || m.atDistance.Changed? || m.extinction.Changed?
  }

  /** A drag outside every window and off the gizmo moves the camera. */
  predicate DragOutsideUi(m: MouseState)
  {
    !m.windowFocused && m.anyDown && !m.overGizmo
  }

  function Toggle(b: bool, pressed: bool): bool
  {
    if pressed then !b else b
  }

  /** The staging options after the Render Settings widgets have written them. */
  function ApplyRenderWidgets(o: RenderOptions, w: RenderWidgets): RenderOptions
  {
    o.(maxDepth := w.maxDepth.Apply(o.maxDepth),
       useEnvMap := Toggle(o.useEnvMap, w.toggleEnvMap),
       hdrMultiplier := w.hdrMultiplier.Apply(o.hdrMultiplier),
       enableRR := Toggle(o.enableRR, w.toggleRR),
       rrDepth := w.rrDepth.Apply(o.rrDepth),
       useConstantBg := Toggle(o.useConstantBg, w.toggleConstantBg),
       bgColor := w.bgColor.Apply(o.bgColor),
       enableDenoiser := Toggle(o.enableDenoiser, w.toggleDenoiser),
       denoiserFrameCnt := w.denoiserFrameCnt.Apply(o.denoiserFrameCnt))
  }

  function ApplyMaterialWidgets(m: Material, w: MaterialWidgets): Material
  {
    m.(albedo := w.albedo.Apply(m.albedo),
       metallic := w.metallic.Apply(m.metallic),
       roughness := w.roughness.Apply(m.roughness),
       specular := w.specular.Apply(m.specular),
       specularTint := w.specularTint.Apply(m.specularTint),
       subsurface := w.subsurface.Apply(m.subsurface),
       sheen := w.sheen.Apply(m.sheen),
       sheenTint := w.sheenTint.Apply(m.sheenTint),
       clearcoat := w.clearcoat.Apply(m.clearcoat),
       clearcoatGloss := w.clearcoatGloss.Apply(m.clearcoatGloss),
       transmission := w.transmission.Apply(m.transmission),
       ior := w.ior.Apply(m.ior),
       atDistance := w.atDistance.Apply(m.atDistance),
       extinction := w.extinction.Apply(m.extinction))
  }

  /** Whether the list entry `i` reported a click this frame. */
  predicate Clicked(clicked: seq<bool>, i: nat)
  {
    i < |clicked| && clicked[i]
  }

  /** The selection after the instance list of `n` entries has been drawn,
      starting from `sel`: the last clicked entry, or `sel` if none was. */
  function LastClicked(clicked: seq<bool>, n: nat, sel: nat): (r: nat)
    ensures r == sel || (r < n && Clicked(clicked, r))
    ensures (forall i :: 0 <= i < n ==> !Clicked(clicked, i)) ==> r == sel
    ensures (exists i :: 0 <= i < n && Clicked(clicked, i)) ==> r < n && Clicked(clicked, r)
    ensures r != sel || Clicked(clicked, r) ==> forall j :: r < j < n ==> !Clicked(clicked, j)
    decreases n
  {
    if n == 0 then sel
    else if Clicked(clicked, n - 1) then n - 1
    else LastClicked(clicked, n - 1, sel)
  }

  // ---------------------------------------------------------------------
  // The reference meaning of a frame

  /** `LoadScene` (lines 100-108): a new scene from the loader, whose options
      become both copies; the instance selection returns to 0. The loader's
      success flag is not looked at. */
  function LoadScene(s: AppState, path: string, load: Loader): AppState
  {
    var o := load(path, s.staging);
    s.(staging := o.options,
       scene := o.scene.(options := o.options),
       selectedInstance := 0,
       sceneGeneration := s.sceneGeneration + 1)
  }

  /** `InitRenderer` (lines 110-116): a new renderer bound to the scene. */
  function InitRenderer(s: AppState): AppState
  {
    s.(rendererGeneration := s.rendererGeneration + 1, rendererOptions := s.scene.options)
  }

  /** The "Scene" combo (lines 265-270). The combo lists `sceneFiles`, so a
      choice indexes it. */
  function ChooseScene(s: AppState, choice: Option<nat>, load: Loader): AppState
    requires choice.Some? ==> choice.value < |s.sceneFiles|
  {
    match choice
    case None => s
    case Some(k) => InitRenderer(LoadScene(s.(sampleSceneIndex := k), s.sceneFiles[k], load))
  }

  /** The "Render Settings" header when open (lines 276-297). */
  function RenderSettings(s: AppState, w: RenderWidgets): AppState
  {
    var staging := ApplyRenderWidgets(s.staging, w);
    var s1 := s.(staging := staging);
    var s2 := if RequiresReload(w) then InitRenderer(s1.(scene := s1.scene.(options := staging))) else s1;
    var opts := s2.scene.options.(enableDenoiser := staging.enableDenoiser,
                                  denoiserFrameCnt := staging.denoiserFrameCnt);
    s2.(scene := s2.scene.(options := opts))
  }

  /** Lines 311-316: the camera's moving flag is cleared, then raised (with
      the scene's options synced from the staging copy) if `optionsChanged`. */
  function SyncOptions(s: AppState, optionsChanged: bool): AppState
  {
    var opts := if optionsChanged then s.staging else s.scene.options;
    s.(scene := s.scene.(options := opts, camera := s.scene.camera.(isMoving := optionsChanged)))
  }

  /** What the Objects panel needs to index without going out of bounds:
      a selection in range, and a material id in range for the instance
      selected once the list has been drawn (the only one lines 340-382
      read). Other instances' material ids are not read. */
  predicate PanelSafe(s: AppState, o: ObjectWidgets)
  {
    && |s.scene.instances| > 0
    && s.selectedInstance < |s.scene.instances|
    && 0 <= s.scene.instances[LastClicked(o.clicked, |s.scene.instances|, s.selectedInstance)].materialID
         < |s.scene.materials|
  }

  /** The "Objects" header when open (lines 318-407). */
  function ObjectsPanel(s: AppState, o: ObjectWidgets): AppState
    requires PanelSafe(s, o)
  {
    var sel := LastClicked(o.clicked, |s.scene.instances|, s.selectedInstance);
    var inst := s.scene.instances[sel];
    var mats := s.scene.materials[inst.materialID := ApplyMaterialWidgets(s.scene.materials[inst.materialID], o.material)];
    var moved := o.gizmo != inst.transform;
    var insts := if moved then s.scene.instances[sel := inst.(transform := o.gizmo)] else s.scene.instances;
    s.(selectedInstance := sel,
       scene := s.scene.(instances := insts, materials := mats),
       rebuildCount := if MaterialChanged(o.material) || moved then s.rebuildCount + 1 else s.rebuildCount)
  }

  /** What a frame's input must satisfy: a combo choice is one of the listed
      files, and the Objects panel is only opened on a scene it can index. */
  predicate InputFits(s: AppState, f: FrameInput, load: Loader)
  {
    && (f.sceneChoice.Some? ==> f.sceneChoice.value < |s.sceneFiles|)
    && (f.objectsOpen ==> PanelSafe(ChooseScene(s, f.sceneChoice, load), f.objects))
  }

  /** The scene the Settings window ends up working on, and the state just
      before the Objects header. */
  function BeforeObjects(s: AppState, f: FrameInput, load: Loader): AppState
    requires f.sceneChoice.Some? ==> f.sceneChoice.value < |s.sceneFiles|
  {
    var s1 := ChooseScene(s, f.sceneChoice, load);
    var s2 := s1.(mouseSensitivity := f.mouseSensitivity.Apply(s1.mouseSensitivity));
    var s3 := if f.renderOpen then RenderSettings(s2, f.render) else s2;
    SyncOptions(s3, OptionsChanged(f))
  }

  /** The "Settings" window: everything between `ImGui::Begin` and `ImGui::End`.
      Afterwards `isMoving` is exactly `optionsChanged`; the scene list, the
      mouse sensitivity and the number of constructed scenes change only
      through their widgets. */
  function SettingsWindow(s: AppState, f: FrameInput, load: Loader): (r: AppState)
    requires InputFits(s, f, load)
    ensures r.scene.camera.isMoving == OptionsChanged(f)
    ensures r.sceneFiles == s.sceneFiles
    ensures r.mouseSensitivity == f.mouseSensitivity.Apply(s.mouseSensitivity)
    ensures r.sceneGeneration == s.sceneGeneration + (if f.sceneChoice.Some? then 1 else 0)
  {
    var s4 := BeforeObjects(s, f, load);
    if f.objectsOpen then ObjectsPanel(s4, f.objects) else s4
  }

  /** `Update` (lines 143-171): a drag outside the UI raises `isMoving`. */
  function UpdateStep(s: AppState, m: MouseState): AppState
  {
    if DragOutsideUi(m) then s.(scene := s.scene.(camera := s.scene.camera.(isMoving := true))) else s
  }

  /** One pass of `MainLoop` up to `Render`: the camera ends the pass
      moving exactly when a widget of the `optionsChanged` group changed or
      the mouse was dragged outside the UI. */
  function FrameStep(s: AppState, f: FrameInput, load: Loader): (r: AppState)
    requires InputFits(s, f, load)
    ensures r.scene.camera.isMoving == (OptionsChanged(f) || DragOutsideUi(f.mouse))
    ensures r.sceneFiles == s.sceneFiles
    ensures r.sceneGeneration == s.sceneGeneration + (if f.sceneChoice.Some? then 1 else 0)
  {
    UpdateStep(SettingsWindow(s, f, load), f.mouse)
  }

  /** The file the "Save Screenshot" button asks for, if it was pressed. */
  function ScreenshotRequest(f: FrameInput): Option<string>
  {
    if f.saveScreenshot then Some(Screenshot.ScreenshotName(f.sampleCount)) else None
  }

  // ---------------------------------------------------------------------
  // Properties of a frame

  /** Between frames the two option copies agree and the selections stay in range. */
  lemma FramePreservesValid(s: AppState, f: FrameInput, load: Loader)
    requires Valid(s) && InputFits(s, f, load)
    ensures Valid(FrameStep(s, f, load))
  {
    BeforeObjectsKeepsInstances(s, f, load);
  }

  /** Nothing in the Settings window before the Objects header touches the
      instance list, the materials or the selection of the scene in place
      after the combo; hence the Objects header sees the bounds the combo
      left. */
  lemma BeforeObjectsKeepsInstances(s: AppState, f: FrameInput, load: Loader)
    requires InputFits(s, f, load)
    ensures var s1, s4 := ChooseScene(s, f.sceneChoice, load), BeforeObjects(s, f, load);
      && s4.scene.instances == s1.scene.instances
      && s4.scene.materials == s1.scene.materials
      && s4.selectedInstance == s1.selectedInstance
      && s4.sceneFiles == s.sceneFiles
    ensures f.objectsOpen ==> PanelSafe(BeforeObjects(s, f, load), f.objects)
  {
  }

  /** The renderer is rebuilt once for a scene choice and once more when the
      Render Settings header is open and the env-map, RR, RR-depth or
      constant-background widget changed; a rebuilt renderer sees the scene
      options synced from the staging copy. */
  lemma RendererRebuildRule(s: AppState, f: FrameInput, load: Loader)
    requires Valid(s) && InputFits(s, f, load)
    ensures var t := FrameStep(s, f, load);
      && t.rendererGeneration == s.rendererGeneration
           + (if f.sceneChoice.Some? then 1 else 0)
           + (if f.renderOpen && RequiresReload(f.render) then 1 else 0)
      && (f.renderOpen && RequiresReload(f.render) ==> t.rendererOptions == t.staging)
      && (f.sceneChoice.Some? && !(f.renderOpen && RequiresReload(f.render)) ==>
            t.rendererOptions == load(s.sceneFiles[f.sceneChoice.value], s.staging).options)
      && (t.rendererGeneration == s.rendererGeneration ==> t.rendererOptions == s.rendererOptions)
  {
  }

  /** The staging options change only through the Render Settings widgets
      and the loader. */
  lemma StagingOptionsRule(s: AppState, f: FrameInput, load: Loader)
    requires Valid(s) && InputFits(s, f, load)
    ensures var t := FrameStep(s, f, load);
      var loaded := if f.sceneChoice.Some? then load(s.sceneFiles[f.sceneChoice.value], s.staging).options else s.staging;
      t.staging == if f.renderOpen then ApplyRenderWidgets(loaded, f.render) else loaded
  {
  }

  /** After the Settings window `isMoving` is set exactly when a widget of
      the `optionsChanged` group changed, and then the scene's options equal
      the staging copy; `Update` can only raise it afterwards. */
  lemma IsMovingRule(s: AppState, f: FrameInput, load: Loader)
    requires Valid(s) && InputFits(s, f, load)
    ensures var u := SettingsWindow(s, f, load);
      && u.scene.camera.isMoving == OptionsChanged(f)
      && (OptionsChanged(f) ==> u.scene.options == u.staging)
      && FrameStep(s, f, load).scene.camera.isMoving == (OptionsChanged(f) || DragOutsideUi(f.mouse))
  {
  }

  /** `Update` touches nothing but the moving flag, and never lowers it. */
  lemma UpdateOnlyRaisesIsMoving(s: AppState, m: MouseState)
    ensures var t := UpdateStep(s, m);
      && (s.scene.camera.isMoving ==> t.scene.camera.isMoving)
      && t == s.(scene := s.scene.(camera := t.scene.camera))
  {
  }

  /** Maximum depth and background colour restart accumulation without
      rebuilding the renderer, even when constant-background mode is off. */
  lemma ResetGroupDoesNotReload(s: AppState, f: FrameInput, load: Loader)
    requires Valid(s) && InputFits(s, f, load)
    requires f.sceneChoice.None? && f.renderOpen && !RequiresReload(f.render)
    requires f.render.maxDepth.Changed? || f.render.bgColor.Changed?
    ensures var t := FrameStep(s, f, load);
      && t.rendererGeneration == s.rendererGeneration
      && t.scene.camera.isMoving
      && t.scene.options == t.staging
  {
  }

  /** The denoiser widgets reach the scene's options but neither rebuild the
      renderer nor restart accumulation. */
  lemma DenoiserEditsOnlyCopyTwoFields(s: AppState, f: FrameInput, load: Loader)
    requires Valid(s) && InputFits(s, f, load)
    requires f.sceneChoice.None? && f.renderOpen
    requires !RequiresReload(f.render) && !OptionsChanged(f) && !DragOutsideUi(f.mouse)
    ensures var t := FrameStep(s, f, load);
      && t.rendererGeneration == s.rendererGeneration
      && !t.scene.camera.isMoving
      && t.scene.options == s.scene.options.(enableDenoiser := Toggle(s.staging.enableDenoiser, f.render.toggleDenoiser),
                                             denoiserFrameCnt := f.render.denoiserFrameCnt.Apply(s.staging.denoiserFrameCnt))
  {
  }

  /** A frame in which no widget reports a change and the mouse is not
      dragged changes nothing but clearing `isMoving` and, with the Objects
      header open, the list selection. */
  lemma QuietFrame(s: AppState, f: FrameInput, load: Loader)
    requires Valid(s) && InputFits(s, f, load)
    requires f.sceneChoice.None? && !OptionsChanged(f) && !DragOutsideUi(f.mouse)
    requires f.renderOpen ==> !RequiresReload(f.render) && !f.render.toggleDenoiser && f.render.denoiserFrameCnt.Idle?
    requires f.objectsOpen ==>
      && !MaterialChanged(f.objects.material)
      && f.objects.gizmo == s.scene.instances[LastClicked(f.objects.clicked, |s.scene.instances|, s.selectedInstance)].transform
    ensures var t := FrameStep(s, f, load);
      t.(selectedInstance := s.selectedInstance) == s.(scene := s.scene.(camera := Camera(false)))
    ensures FrameStep(s, f, load).scene.materials == s.scene.materials
    ensures !f.objectsOpen ==> FrameStep(s, f, load).selectedInstance == s.selectedInstance
  {
  }

  /** `RebuildInstances` runs once exactly when the Objects header is open
      and a material widget changed or the edited transform differs from the
      selected instance's; only the selected instance's transform is
      overwritten, and only its material is edited. */
  lemma RebuildInstancesRule(s: AppState, f: FrameInput, load: Loader)
    requires Valid(s) && InputFits(s, f, load) && f.objectsOpen
    ensures var s4 := BeforeObjects(s, f, load);
      var t := FrameStep(s, f, load);
      var sel := t.selectedInstance;
      && sel < |s4.scene.instances|
      && sel == LastClicked(f.objects.clicked, |s4.scene.instances|, s4.selectedInstance)
      && t.rebuildCount == s.rebuildCount
           + (if MaterialChanged(f.objects.material) || f.objects.gizmo != s4.scene.instances[sel].transform then 1 else 0)
      && t.scene.instances == s4.scene.instances[sel := s4.scene.instances[sel].(transform := f.objects.gizmo)]
      && var id := s4.scene.instances[sel].materialID;
         t.scene.materials == s4.scene.materials[id := ApplyMaterialWidgets(s4.scene.materials[id], f.objects.material)]
  {
    BeforeObjectsKeepsInstances(s, f, load);
  }

  /** Without the Objects header open the instances, materials and rebuild
      count are left alone. */
  lemma ObjectsClosedRule(s: AppState, f: FrameInput, load: Loader)
    requires Valid(s) && InputFits(s, f, load) && !f.objectsOpen
    ensures var c := ChooseScene(s, f.sceneChoice, load);
      var t := FrameStep(s, f, load);
      && t.rebuildCount == s.rebuildCount
      && t.scene.instances == c.scene.instances
      && t.scene.materials == c.scene.materials
      && t.selectedInstance == c.selectedInstance
  {
  }

  /** Choosing a scene in the combo replaces the scene with the loaded one,
      whose options become both copies, resets the instance selection and
      builds a renderer for it; the loader's success flag is ignored. */
  lemma SceneSwitchRule(s: AppState, k: nat, load: Loader)
    requires Valid(s) && k < |s.sceneFiles|
    ensures var c := ChooseScene(s, Some(k), load);
      var o := load(s.sceneFiles[k], s.staging);
      && c.sampleSceneIndex == k
      && c.scene == o.scene.(options := o.options)
      && c.staging == o.options
      && c.selectedInstance == 0
      && c.sceneGeneration == s.sceneGeneration + 1
      && c.rendererGeneration == s.rendererGeneration + 1
      && c.rendererOptions == o.options
      && Valid(c)
  {
  }

  /** The instance list only ever selects an index in range. */
  lemma SelectionInRange(clicked: seq<bool>, n: nat, sel: nat)
    requires sel < n
    ensures LastClicked(clicked, n, sel) < n
    ensures LastClicked(clicked, n, sel) == sel || Clicked(clicked, LastClicked(clicked, n, sel))
  {
  }

  // ---------------------------------------------------------------------
  // Successive frames

  /** Every frame of `frames` fits the state the previous ones leave behind. */
  predicate FramesFit(s: AppState, frames: seq<FrameInput>, load: Loader)
    decreases |frames|
  {
    frames == [] || (InputFits(s, frames[0], load) && FramesFit(FrameStep(s, frames[0], load), frames[1..], load))
  }

  /** The state after running `frames` one after the other. */
  function Replay(s: AppState, frames: seq<FrameInput>, load: Loader): AppState
    requires FramesFit(s, frames, load)
    decreases |frames|
  {
    if frames == [] then s else Replay(FrameStep(s, frames[0], load), frames[1..], load)
  }

  /** The invariant holds after any run of frames, and the counters of
      constructed scenes and renderers and of instance rebuilds never go back. */
  lemma {:induction false} ReplayPreservesValid(s: AppState, frames: seq<FrameInput>, load: Loader)
    requires Valid(s) && FramesFit(s, frames, load)
    ensures var t := Replay(s, frames, load);
      && Valid(t)
      && t.sceneGeneration >= s.sceneGeneration
      && t.rendererGeneration >= s.rendererGeneration
      && t.rebuildCount >= s.rebuildCount
    decreases |frames|
  {
    if frames != [] {
      FramePreservesValid(s, frames[0], load);
      RendererRebuildRule(s, frames[0], load);
      ReplayPreservesValid(FrameStep(s, frames[0], load), frames[1..], load);
    }
  }

  /** However the earlier frames of a run moved the camera, a last frame
      with no drag and no widget of the `optionsChanged` group leaves
      `isMoving` lowered. */
  lemma {:induction false} QuietLastFrameClearsIsMoving(s: AppState, frames: seq<FrameInput>, load: Loader)
    requires Valid(s) && FramesFit(s, frames, load) && |frames| > 0
    requires !DragOutsideUi(frames[|frames| - 1].mouse) && !OptionsChanged(frames[|frames| - 1])
    ensures !Replay(s, frames, load).scene.camera.isMoving
    decreases |frames|
  {
    IsMovingRule(s, frames[0], load);
    FramePreservesValid(s, frames[0], load);
    if |frames| > 1 {
      QuietLastFrameClearsIsMoving(FrameStep(s, frames[0], load), frames[1..], load);
    }
  }
}
