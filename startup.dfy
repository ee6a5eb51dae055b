/** Start-up (src/Main.cpp, `main`, lines 426-449 and 495): parse the command
    line, load the scene it names or the first scene discovered in the
    assets directory, and build the first renderer. */
module Startup {
  import opened Common
  import opened CommandLine
  import opened Discovery
  import opened RenderState

  datatype StartupError =
    | BadInvocation(cause: CliError)   // "Unknown option", or a scene flag without a value
    | SceneLoadFailed(path: string)    // the scene named on the command line did not load
    | NoSceneFiles                     // discovery found no `.scene` file

  const AssetsDir: string := "../assets/"
  const InitialMouseSensitivity: real := 0.01

  /** The process-wide state once `loaded` is in place as the first scene,
      with `files` as the scene list, and `InitRenderer` has run. */
  function Started(files: seq<string>, loaded: LoadOutcome): AppState
  {
    var s := AppState(
      staging := loaded.options,
      scene := loaded.scene.(options := loaded.options),
      mouseSensitivity := InitialMouseSensitivity,
      sceneFiles := files,
      sampleSceneIndex := 0,
      selectedInstance := 0,
      sceneGeneration := 1,
      rendererGeneration := 0,
      rendererOptions := loaded.options,
      rebuildCount := 0);
    InitRenderer(s)
  }

  /** How start-up ends: the first state of the main loop, or the error that
      ends the process before any window is opened. `defaults` is the
      default-constructed global `renderOptions` (line 62) the loader is
      handed; its initial values are set in a header that is not part of
      this model. The first state satisfies the invariant, with one scene,
      one renderer built from the staging options, and both selections 0. */
  function Boot(argv: seq<string>, listing: seq<DirEntry>, load: Loader, defaults: RenderOptions)
    : (r: Result<AppState, StartupError>)
    ensures r.Success? ==>
      && Valid(r.value)
      && r.value.selectedInstance == 0 && r.value.sampleSceneIndex == 0
      && r.value.sceneGeneration == 1 && r.value.rendererGeneration == 1
      && r.value.rendererOptions == r.value.staging
  {
    match Scan(Arguments(argv), "")
    case Failure(e) => Failure(BadInvocation(e))
    case Success(sceneFile) =>
      if sceneFile != "" then
        var o := load(sceneFile, defaults);
        if o.ok then Success(Started([], o)) else Failure(SceneLoadFailed(sceneFile))
      else
        var files := ScenePaths(AssetsDir, listing);
        if files == [] then Failure(NoSceneFiles) else Success(Started(files, load(files[0], defaults)))
  }

  /** A rejected command line ends start-up before any scene is loaded or
      any directory is listed: the outcome depends on nothing else. */
  lemma BadInvocationLoadsNothing(argv: seq<string>, listing: seq<DirEntry>, load: Loader, defaults: RenderOptions)
    requires Scan(Arguments(argv), "").Failure?
    ensures Boot(argv, listing, load, defaults) == Failure(BadInvocation(Scan(Arguments(argv), "").error))
  {
  }

  /** A non-empty scene path loads that file directly; start-up goes on
      exactly when the loader reports success, and no scene list is built. */
  lemma DirectLoadRule(argv: seq<string>, listing: seq<DirEntry>, load: Loader, defaults: RenderOptions)
    requires Scan(Arguments(argv), "").Success? && Scan(Arguments(argv), "").value != ""
    ensures var path := Scan(Arguments(argv), "").value;
      var o := load(path, defaults);
      && (Boot(argv, listing, load, defaults).Success? <==> o.ok)
      && (Boot(argv, listing, load, defaults).Success? ==>
            && Boot(argv, listing, load, defaults).value.sceneFiles == []
            && Boot(argv, listing, load, defaults).value.scene == o.scene.(options := o.options))
  {
  }

  /** An empty scene path starts discovery: start-up goes on exactly when
      the listing holds a `.scene` entry, and then loads the first discovered
      file whatever the loader reports. */
  lemma DiscoveryRule(argv: seq<string>, listing: seq<DirEntry>, load: Loader, defaults: RenderOptions)
    requires Scan(Arguments(argv), "") == Success("")
    ensures Boot(argv, listing, load, defaults).Success? <==> exists j :: 0 <= j < |listing| && IsSceneEntry(listing[j])
    ensures Boot(argv, listing, load, defaults).Success? ==>
      var files := ScenePaths(AssetsDir, listing);
      var o := load(files[0], defaults);
      && Boot(argv, listing, load, defaults).value.sceneFiles == files
      && Boot(argv, listing, load, defaults).value.scene == o.scene.(options := o.options)
  {
    NothingDiscovered(AssetsDir, listing);
  }

  // ---------------------------------------------------------------------
  // Discovery mode as written: `LoadScene(sceneFiles[sampleSceneIndex])`
  // (line 448) with `sampleSceneIndex` still 0 and no check that anything
  // was found.

  /** Whether the read `sceneFiles[sampleSceneIndex]` stays inside the list. */
  predicate IndexInBounds(sceneFiles: seq<string>, sampleSceneIndex: nat)
  {
    sampleSceneIndex < |sceneFiles|
  }

  /** The read of line 448 is in bounds exactly when the listing holds a
      `.scene` entry: on every other assets directory it reads past the end. */
  lemma {:induction false} EmptyDiscoveryIndexesPastEnd(listing: seq<DirEntry>)
    ensures IndexInBounds(ScenePaths(AssetsDir, listing), 0)
        <==> exists j :: 0 <= j < |listing| && IsSceneEntry(listing[j])
  {
    NothingDiscovered(AssetsDir, listing);
  }

  /** An assets directory holding only a sub-directory reaches that read. */
  lemma NoSceneFileReadsPastEnd()
    ensures !IndexInBounds(ScenePaths(AssetsDir, [DirEntry("textures", "")]), 0)
  {
    EmptyDiscoveryIndexesPastEnd([DirEntry("textures", "")]);
  }
}
