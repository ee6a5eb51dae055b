/** The front end of the path tracer as the program runs it: the
    process-wide variables of src/Main.cpp as the fields of one object, the
    functions that update them as its methods, and `main`'s start-up as
    `Launch`. Each method is proved to do what the reference functions of
    `RenderState` and `Startup` say. */
module Application {
  import opened Common
  import CommandLine
  import Discovery
  import Screenshot
  import RS = RenderState
  import Startup

  class App {
    var staging: RS.RenderOptions          // renderOptions
    var scene: RS.Scene                    // *scene
    var mouseSensitivity: real
    var sceneFiles: seq<string>
    var sampleSceneIndex: nat
    var selectedInstance: nat
    var sceneGeneration: nat               // scenes constructed so far
    var rendererGeneration: nat            // renderers constructed so far
    var rendererOptions: RS.RenderOptions  // scene options the current renderer was built from
    var rebuildCount: nat                  // calls of scene->RebuildInstances()

    function State(): RS.AppState
      reads this
    {
      RS.AppState(staging, scene, mouseSensitivity, sceneFiles, sampleSceneIndex,
                  selectedInstance, sceneGeneration, rendererGeneration, rendererOptions, rebuildCount)
    }

    predicate Valid()
      reads this
    {
      RS.Valid(State())
    }

    /** The variables once `loaded` has been put in place as the first scene
        (lines 438-449) and the first renderer built (line 495). */
    constructor (files: seq<string>, loaded: RS.LoadOutcome)
      ensures State() == Startup.Started(files, loaded)
    {
      staging := loaded.options;
      scene := loaded.scene;
      mouseSensitivity := Startup.InitialMouseSensitivity;
      sceneFiles := files;
      sampleSceneIndex := 0;
      selectedInstance := 0;
      sceneGeneration := 1;
      rendererGeneration := 0;
      rendererOptions := loaded.options;
      rebuildCount := 0;
      new;
      scene := scene.(options := staging);
      InitRenderer();
    }

    /** `LoadScene` (lines 100-108). */
    method LoadScene(path: string, load: RS.Loader)
      modifies this
      ensures State() == RS.LoadScene(old(State()), path, load)
    {
      sceneGeneration := sceneGeneration + 1;
      var loaded := load(path, staging);
      scene := loaded.scene;
      staging := loaded.options;
      selectedInstance := 0;
      scene := scene.(options := staging);
    }

    /** `InitRenderer` (lines 110-116). */
    method InitRenderer()
      modifies this
      ensures State() == RS.InitRenderer(old(State()))
    {
      rendererGeneration := rendererGeneration + 1;
      rendererOptions := scene.options;
    }

    /** A slider or colour editor bound to `value`: the value it leaves and
        whether it reports a change. */
    static method Slider<T>(value: T, w: Widget<T>) returns (newValue: T, changed: bool)
      ensures newValue == w.Apply(value) && changed == w.Changed?
    {
      newValue, changed := value, false;
      if w.Changed? {
        newValue, changed := w.value, true;
      }
    }

    /** A checkbox bound to `value`: a click flips it and reports a change. */
    static method Checkbox(value: bool, pressed: bool) returns (newValue: bool, changed: bool)
      ensures newValue == RS.Toggle(value, pressed) && changed == pressed
    {
      newValue, changed := value, false;
      if pressed {
        newValue, changed := !value, true;
      }
    }

    /** The widgets of the "Render Settings" header (lines 278-288): each
        writes one option of the staging copy and reports a change, which is
        ORed into `optionsChanged` or `requiresReload` (the denoiser widgets
        into neither). */
    static method EditRenderOptions(options: RS.RenderOptions, w: RS.RenderWidgets)
      returns (edited: RS.RenderOptions, optionsChanged: bool, requiresReload: bool)
      ensures edited == RS.ApplyRenderWidgets(options, w)
      ensures optionsChanged == RS.RenderOptionsChanged(w)
      ensures requiresReload == RS.RequiresReload(w)
    {
      optionsChanged, requiresReload := false, false;
      var maxDepth, useEnvMap, hdrMultiplier, enableRR, rrDepth, useConstantBg, bgColor, enableDenoiser, denoiserFrameCnt;
      var changed: bool;

      maxDepth, changed := Slider(options.maxDepth, w.maxDepth);
      optionsChanged := optionsChanged || changed;
      useEnvMap, changed := Checkbox(options.useEnvMap, w.toggleEnvMap);
      requiresReload := requiresReload || changed;
      hdrMultiplier, changed := Slider(options.hdrMultiplier, w.hdrMultiplier);
      optionsChanged := optionsChanged || changed;
      enableRR, changed := Checkbox(options.enableRR, w.toggleRR);
      requiresReload := requiresReload || changed;
      rrDepth, changed := Slider(options.rrDepth, w.rrDepth);
      requiresReload := requiresReload || changed;
      useConstantBg, changed := Checkbox(options.useConstantBg, w.toggleConstantBg);
      requiresReload := requiresReload || changed;
      bgColor, changed := Slider(options.bgColor, w.bgColor);
      optionsChanged := optionsChanged || changed;
      enableDenoiser, changed := Checkbox(options.enableDenoiser, w.toggleDenoiser);
      denoiserFrameCnt, changed := Slider(options.denoiserFrameCnt, w.denoiserFrameCnt);

      edited := options.(maxDepth := maxDepth, useEnvMap := useEnvMap, hdrMultiplier := hdrMultiplier,
                         enableRR := enableRR, rrDepth := rrDepth, useConstantBg := useConstantBg,
                         bgColor := bgColor, enableDenoiser := enableDenoiser,
                         denoiserFrameCnt := denoiserFrameCnt);
    }

    /** The "Render Settings" header (lines 276-297): a reload-group change
        syncs the scene's options and rebuilds the renderer; the denoiser
        settings are copied every frame the header is open. Returns what the
        header ORs into `optionsChanged`. */
    method RenderSettings(w: RS.RenderWidgets) returns (optionsChanged: bool)
      modifies this
      ensures State() == RS.RenderSettings(old(State()), w)
      ensures optionsChanged == RS.RenderOptionsChanged(w)
    {
      var requiresReload;
      staging, optionsChanged, requiresReload := EditRenderOptions(staging, w);

      if requiresReload {
        scene := scene.(options := staging);
        InitRenderer();
      }

      var sceneOptions := scene.options;
      sceneOptions := sceneOptions.(enableDenoiser := staging.enableDenoiser);
      sceneOptions := sceneOptions.(denoiserFrameCnt := staging.denoiserFrameCnt);
      scene := scene.(options := sceneOptions);
    }

    /** The material widgets of the Objects header (lines 340-382): each
        edits one parameter of the selected instance's material and reports
        a change, which is ORed into `objectPropChanged`. */
    static method EditMaterial(material: RS.Material, w: RS.MaterialWidgets)
      returns (edited: RS.Material, objectPropChanged: bool)
      ensures edited == RS.ApplyMaterialWidgets(material, w)
      ensures objectPropChanged == RS.MaterialChanged(w)
    {
      objectPropChanged := false;
      var albedo, metallic, roughness, specular, specularTint, subsurface, sheen, sheenTint,
          clearcoat, clearcoatGloss, transmission, ior, atDistance, extinction;
      var changed: bool;

      albedo, changed := Slider(material.albedo, w.albedo);
      objectPropChanged := objectPropChanged || changed;
      metallic, changed := Slider(material.metallic, w.metallic);
      objectPropChanged := objectPropChanged || changed;
      roughness, changed := Slider(material.roughness, w.roughness);
      objectPropChanged := objectPropChanged || changed;
      specular, changed := Slider(material.specular, w.specular);
      objectPropChanged := objectPropChanged || changed;
      specularTint, changed := Slider(material.specularTint, w.specularTint);
      objectPropChanged := objectPropChanged || changed;
      subsurface, changed := Slider(material.subsurface, w.subsurface);
      objectPropChanged := objectPropChanged || changed;
      sheen, changed := Slider(material.sheen, w.sheen);
      objectPropChanged := objectPropChanged || changed;
      sheenTint, changed := Slider(material.sheenTint, w.sheenTint);
      objectPropChanged := objectPropChanged || changed;
      clearcoat, changed := Slider(material.clearcoat, w.clearcoat);
      objectPropChanged := objectPropChanged || changed;
      clearcoatGloss, changed := Slider(material.clearcoatGloss, w.clearcoatGloss);
      objectPropChanged := objectPropChanged || changed;
      transmission, changed := Slider(material.transmission, w.transmission);
      objectPropChanged := objectPropChanged || changed;
      ior, changed := Slider(material.ior, w.ior);
      objectPropChanged := objectPropChanged || changed;
      atDistance, changed := Slider(material.atDistance, w.atDistance);
      objectPropChanged := objectPropChanged || changed;
      extinction, changed := Slider(material.extinction, w.extinction);
      objectPropChanged := objectPropChanged || changed;

      edited := material.(albedo := albedo, metallic := metallic, roughness := roughness,
                          specular := specular, specularTint := specularTint, subsurface := subsurface,
                          sheen := sheen, sheenTint := sheenTint, clearcoat := clearcoat,
                          clearcoatGloss := clearcoatGloss, transmission := transmission, ior := ior,
                          atDistance := atDistance, extinction := extinction);
    }

    /** The "Objects" header (lines 318-407): the instance list, the selected
        instance's material, its transform, and the rebuild they may call for. */
    method ObjectsPanel(o: RS.ObjectWidgets)
      requires RS.PanelSafe(State(), o)
      modifies this
      ensures State() == RS.ObjectsPanel(old(State()), o)
    {
      var objectPropChanged := false;

      for i := 0 to |scene.instances|
        invariant selectedInstance == RS.LastClicked(o.clicked, i, old(selectedInstance))
        invariant State() == old(State()).(selectedInstance := selectedInstance)
      {
        if i < |o.clicked| && o.clicked[i] {
          selectedInstance := i;
        }
      }
      RS.SelectionInRange(o.clicked, |scene.instances|, old(selectedInstance));

      var id := scene.instances[selectedInstance].materialID;
      var material, changed := EditMaterial(scene.materials[id], o.material);
      scene := scene.(materials := scene.materials[id := material]);
      objectPropChanged := objectPropChanged || changed;

      var xform := o.gizmo;
      if xform != scene.instances[selectedInstance].transform {
        scene := scene.(instances := scene.instances[selectedInstance :=
                   scene.instances[selectedInstance].(transform := xform)]);
        objectPropChanged := true;
      }

      if objectPropChanged {
        rebuildCount := rebuildCount + 1;
      }
    }

    /** The "Settings" window (lines 247-409). Returns the file name the
        "Save Screenshot" button asked for, if it was pressed. */
    method Settings(f: RS.FrameInput, load: RS.Loader) returns (shot: Option<string>)
      requires RS.InputFits(State(), f, load)
      modifies this
      ensures State() == RS.SettingsWindow(old(State()), f, load)
      ensures shot == RS.ScreenshotRequest(f)
    {
      shot := None;
      if f.saveScreenshot {
        shot := Some(Screenshot.ScreenshotName(f.sampleCount));
      }

      SceneCombo(f.sceneChoice, load);
      ghost var s1 := State();

      var optionsChanged := false;
      optionsChanged := optionsChanged || f.mouseSensitivity.Changed?;
      mouseSensitivity := f.mouseSensitivity.Apply(mouseSensitivity);
      ghost var s2 := State();
      assert s2 == s1.(mouseSensitivity := f.mouseSensitivity.Apply(s1.mouseSensitivity));

      if f.renderOpen {
        var changed := RenderSettings(f.render);
        optionsChanged := optionsChanged || changed;
      }
      ghost var s3 := State();
      assert s3 == if f.renderOpen then RS.RenderSettings(s2, f.render) else s2;

      if f.cameraOpen {
        optionsChanged := optionsChanged || f.camera.fov;
        optionsChanged := optionsChanged || f.camera.aperture;
        optionsChanged := optionsChanged || f.camera.focalDist;
      }
      assert optionsChanged == RS.OptionsChanged(f);

      SyncOptions(optionsChanged);
      assert State() == RS.BeforeObjects(old(State()), f, load);
      RS.BeforeObjectsKeepsInstances(old(State()), f, load);

      if f.objectsOpen {
        ObjectsPanel(f.objects);
      }
    }

    /** The "Scene" combo (lines 265-270): picking an entry loads
        that scene file and rebuilds the renderer. */
    method SceneCombo(choice: Option<nat>, load: RS.Loader)
      requires choice.Some? ==> choice.value < |sceneFiles|
      modifies this
      ensures State() == RS.ChooseScene(old(State()), choice, load)
    {
      if choice.Some? {
        sampleSceneIndex := choice.value;
        LoadScene(sceneFiles[sampleSceneIndex], load);
        InitRenderer();
      }
    }

    /** Lines 311-316: the camera stops moving unless a setting changed this
        frame, in which case the scene takes the staging options and the
        camera is marked as moving. */
    method SyncOptions(optionsChanged: bool)
      modifies this
      ensures State() == RS.SyncOptions(old(State()), optionsChanged)
    {
      scene := scene.(camera := scene.camera.(isMoving := false));
      if optionsChanged {
        scene := scene.(options := staging);
        scene := scene.(camera := scene.camera.(isMoving := true));
      }
    }

    /** `Update` (lines 143-171): a drag outside the UI moves the camera. */
    method Update(m: RS.MouseState)
      modifies this
      ensures State() == RS.UpdateStep(old(State()), m)
    {
      if !m.windowFocused && m.anyDown && !m.overGizmo {
        scene := scene.(camera := scene.camera.(isMoving := true));
      }
    }

    /** One pass of `MainLoop` (lines 237-420) up to the renderer calls. */
    method Frame(f: RS.FrameInput, load: RS.Loader) returns (shot: Option<string>)
      requires Valid() && RS.InputFits(State(), f, load)
      modifies this
      ensures Valid()
      ensures State() == RS.FrameStep(old(State()), f, load)
      ensures shot == RS.ScreenshotRequest(f)
    {
      shot := Settings(f, load);
      Update(f.mouse);
      RS.FramePreservesValid(old(State()), f, load);
    }

    /** `MainLoop` over a run of frames; returns each frame's screenshot request. */
    method Run(frames: seq<RS.FrameInput>, load: RS.Loader) returns (shots: seq<Option<string>>)
      requires Valid() && RS.FramesFit(State(), frames, load)
      modifies this
      ensures Valid()
      ensures State() == RS.Replay(old(State()), frames, load)
      ensures |shots| == |frames|
      ensures forall i :: 0 <= i < |frames| ==> shots[i] == RS.ScreenshotRequest(frames[i])
    {
      shots := [];
      var i := 0;
      while i < |frames|
        invariant 0 <= i <= |frames|
        invariant Valid() && RS.FramesFit(State(), frames[i..], load)
        invariant RS.Replay(old(State()), frames, load) == RS.Replay(State(), frames[i..], load)
        invariant |shots| == i
        invariant forall k :: 0 <= k < i ==> shots[k] == RS.ScreenshotRequest(frames[k])
      {
        ghost var rest, before := frames[i..], State();
        assert rest[0] == frames[i] && rest[1..] == frames[i + 1..];
        var shot := Frame(frames[i], load);
        assert RS.Replay(before, rest, load) == RS.Replay(State(), rest[1..], load);
        shots := shots + [shot];
        i := i + 1;
      }
    }
  }

  /** Start-up as `main` runs it (lines 426-449, then line 495). */
  method Launch(argv: seq<string>, listing: seq<Discovery.DirEntry>, load: RS.Loader, defaults: RS.RenderOptions)
    returns (r: Result<App, Startup.StartupError>)
    ensures r.Failure? ==> Startup.Boot(argv, listing, load, defaults) == Failure(r.error)
    ensures r.Success? ==> && fresh(r.value) && r.value.Valid()
                           && Startup.Boot(argv, listing, load, defaults) == Success(r.value.State())
  {
    var parsed := CommandLine.ParseArgs(argv);
    if parsed.Failure? {
      return Failure(Startup.BadInvocation(parsed.error));
    }
    var sceneFile := parsed.value;
    var app: App;
    if sceneFile != "" {
      var loaded := load(sceneFile, defaults);
      if !loaded.ok {
        return Failure(Startup.SceneLoadFailed(sceneFile));
      }
      app := new App([], loaded);
    } else {
      var files := Discovery.GetSceneFiles(Startup.AssetsDir, listing);
      if |files| == 0 {
        return Failure(Startup.NoSceneFiles);
      }
      app := new App(files, load(files[0], defaults));
    }
    r := Success(app);
  }
}
