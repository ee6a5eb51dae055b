/** Scene discovery (src/Main.cpp, `GetSceneFiles`, lines 80-98): the sorted
    listing of the assets directory is filtered to the `.scene` files, each
    kept as the assets directory followed by the file name. */
module Discovery {

  /** One entry of the directory listing: its name and the text after the
      last dot of that name. The listing also holds directories; the filter
      looks at nothing but the extension. */
  datatype DirEntry = DirEntry(name: string, extension: string)

  const SceneExtension: string := "scene"

  predicate IsSceneEntry(e: DirEntry)
  {
    e.extension == SceneExtension
  }

  /** The scene paths the listing yields, in listing order. */
  function ScenePaths(assetsDir: string, listing: seq<DirEntry>): (paths: seq<string>)
    ensures |paths| <= |listing|
    decreases |listing|
  {
    if listing == [] then []
    else
      var last := listing[|listing| - 1];
      ScenePaths(assetsDir, listing[..|listing| - 1])
        + (if IsSceneEntry(last) then [assetsDir + last.name] else [])
  }

  /** The loop of `GetSceneFiles`: walk the listing by index and append each
      `.scene` entry, prefixed with the assets directory, to the list that
      starts empty at start-up. */
  method GetSceneFiles(assetsDir: string, listing: seq<DirEntry>) returns (sceneFiles: seq<string>)
    ensures sceneFiles == ScenePaths(assetsDir, listing)
  {
    sceneFiles := [];
    for i := 0 to |listing|
      invariant sceneFiles == ScenePaths(assetsDir, listing[..i])
    {
      var file := listing[i];
      if file.extension == "scene" {
        sceneFiles := sceneFiles + [assetsDir + file.name];
      }
      assert listing[..i + 1][..i] == listing[..i];
    }
    assert listing[..|listing|] == listing;
  }

  /** Filtering distributes over concatenation of listings: the order of the
      listing is kept and entries do not influence each other. */
  lemma {:induction false} ScenePathsAppend(assetsDir: string, a: seq<DirEntry>, b: seq<DirEntry>)
    ensures ScenePaths(assetsDir, a + b) == ScenePaths(assetsDir, a) + ScenePaths(assetsDir, b)
    decreases |b|
  {
    if b == [] {
      assert a + b == a;
    } else {
      var b' := b[..|b| - 1];
      assert (a + b)[..|a + b| - 1] == a + b';
      ScenePathsAppend(assetsDir, a, b');
    }
  }

  /** A path is discovered exactly when some listing entry has extension
      "scene" and the path is the assets directory followed by its name. */
  lemma {:induction false} ScenePathsMembership(assetsDir: string, listing: seq<DirEntry>, p: string)
    ensures p in ScenePaths(assetsDir, listing)
        <==> exists j :: 0 <= j < |listing| && IsSceneEntry(listing[j]) && p == assetsDir + listing[j].name
    decreases |listing|
  {
    if listing != [] {
      var init := listing[..|listing| - 1];
      ScenePathsMembership(assetsDir, init, p);
      if exists j :: 0 <= j < |listing| && IsSceneEntry(listing[j]) && p == assetsDir + listing[j].name {
        var j :| 0 <= j < |listing| && IsSceneEntry(listing[j]) && p == assetsDir + listing[j].name;
        if j < |init| {
          assert init[j] == listing[j];
        }
      }
      if exists j :: 0 <= j < |init| && IsSceneEntry(init[j]) && p == assetsDir + init[j].name {
        var j :| 0 <= j < |init| && IsSceneEntry(init[j]) && p == assetsDir + init[j].name;
        assert listing[j] == init[j];
      }
    }
  }

  /** Discovery finds nothing exactly when no entry has extension "scene". */
  lemma {:induction false} NothingDiscovered(assetsDir: string, listing: seq<DirEntry>)
    ensures ScenePaths(assetsDir, listing) == []
        <==> forall j :: 0 <= j < |listing| ==> !IsSceneEntry(listing[j])
    decreases |listing|
  {
    if listing != [] {
      var init := listing[..|listing| - 1];
      NothingDiscovered(assetsDir, init);
      if forall j :: 0 <= j < |listing| ==> !IsSceneEntry(listing[j]) {
        assert forall j :: 0 <= j < |init| ==> init[j] == listing[j];
      }
    }
  }

  /** The first discovered path comes from the first `.scene` entry of the listing. */
  lemma {:induction false} FirstDiscovered(assetsDir: string, listing: seq<DirEntry>, j: nat)
    requires j < |listing| && IsSceneEntry(listing[j])
    requires forall k :: 0 <= k < j ==> !IsSceneEntry(listing[k])
    ensures ScenePaths(assetsDir, listing) != []
    ensures ScenePaths(assetsDir, listing)[0] == assetsDir + listing[j].name
  {
    var before, rest := listing[..j], listing[j + 1..];
    assert listing == before + [listing[j]] + rest;
    NothingDiscovered(assetsDir, before);
    ScenePathsAppend(assetsDir, before + [listing[j]], rest);
    ScenePathsAppend(assetsDir, before, [listing[j]]);
    assert ScenePaths(assetsDir, [listing[j]]) == [assetsDir + listing[j].name] by {
      assert [listing[j]][..0] == [];
    }
  }
}
