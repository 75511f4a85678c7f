// The vector loader of the current TypoMoss engine: which SVG files exist, the
// animation mode a file name implies, the element descriptor built for each file, and
// the image preloading into the shared cache. Whether a fetch succeeds and how an
// image load ends are parameters.
module MossLoader {
  import opened Wrappers
  import opened JsStrings
  import opened MossTypes
  import opened SvgCache

  /** `SVG_FOLDER`. */
  const SvgFolder := "/portfolios/typomoss/"

  /** The hard-coded file list `getSVGFileList` probes, in order. */
  const SvgFiles: seq<string> := [
    "vector_sticker_1.svg", "vector_sticker_2.svg", "vector_sticker_3.svg",
    "vector_circle_1.svg", "vector_circle_2.svg",
    "vector_4.svg", "vector_5.svg", "vector_6.svg", "vector_7.svg",
    "vector_8.svg", "vector_9.svg", "vector_10.svg"]

  /** `getAnimationModeFromName`: case-sensitive, 'sticker' before 'circle', otherwise instant. */
  function ModeFromName(filename: string): (m: Mode)
    ensures m == Layered <==> Includes(filename, "sticker")
    ensures m == Rotate <==> !Includes(filename, "sticker") && Includes(filename, "circle")
    ensures m == Instant <==> !Includes(filename, "sticker") && !Includes(filename, "circle")
  {
    if Includes(filename, "sticker") then Layered
    else if Includes(filename, "circle") then Rotate
    else Instant
  }

  /** Every mode the loader assigns has an entry, and so a duration, in the current mode table. */
  lemma LoadedModesHaveDuration(filename: string)
    ensures ModeDuration(ModeFromName(filename)).Some?
  {
  }

  /** The element `loadVectorElements` builds for one file. */
  function ElementFor(filename: string): (el: VectorElement)
    ensures el.name == StripSvg(filename) && el.id == "svg-" + el.name
    ensures el.animationMode == ModeFromName(filename)
    ensures el.color == Some(PrimaryGreen) && el.weight == Some(2.0)
    ensures el.svgPath == Some(SvgFolder + filename) && el.defaultColor.None?
  {
    var name := StripSvg(filename);
    VectorElement("svg-" + name, name, ModeFromName(filename), Some(PrimaryGreen), Some(2.0),
      Some(SvgFolder + filename), None)
  }

  /** The files among `files` whose fetch (`ok` of the file's path) succeeded, in their original order. */
  function Reachable(files: seq<string>, ok: string -> bool): (r: seq<string>)
    ensures |r| <= |files|
  {
    if files == [] then []
    else Reachable(files[..|files| - 1], ok) + (if ok(SvgFolder + files[|files| - 1]) then [files[|files| - 1]] else [])
  }

  /** A file is kept exactly when it is listed and its fetch succeeded. */
  lemma {:induction false} ReachableMembers(files: seq<string>, ok: string -> bool)
    ensures forall f :: f in Reachable(files, ok) <==> f in files && ok(SvgFolder + f)
  {
    if files != [] {
      ReachableMembers(files[..|files| - 1], ok);
      assert files == files[..|files| - 1] + [files[|files| - 1]];
    }
  }

  /** `getSVGFileList`: probe each listed file and keep the ones that answered `ok`; `ok(path)` is the fetch result. */
  method GetSvgFileList(ok: string -> bool) returns (valid: seq<string>)
    ensures valid == Reachable(SvgFiles, ok)
  {
    valid := [];
    var i := 0;
    while i < |SvgFiles|
      invariant 0 <= i <= |SvgFiles|
      invariant valid == Reachable(SvgFiles[..i], ok)
    {
      assert SvgFiles[..i + 1][..i] == SvgFiles[..i];
      if ok(SvgFolder + SvgFiles[i]) {
        valid := valid + [SvgFiles[i]];
      }
      i := i + 1;
    }
    assert SvgFiles[..i] == SvgFiles;
  }

  function ElementsFor(files: seq<string>): (els: seq<VectorElement>)
    ensures |els| == |files|
    ensures forall i :: 0 <= i < |files| ==> els[i] == ElementFor(files[i])
  {
    seq(|files|, i requires 0 <= i < |files| => ElementFor(files[i]))
  }

  /** The loop of `loadVectorElements` over a file list: preload each image, then build its element. */
  method LoadFiles(cache: SvgImageCache, files: seq<string>, outcome: string -> LoadOutcome) returns (els: seq<VectorElement>)
    modifies cache
    ensures els == ElementsFor(files)
    ensures forall f :: f in files ==> SvgFolder + f in cache.entries
    ensures forall p :: p in old(cache.entries) ==> p in cache.entries && cache.entries[p] == old(cache.entries)[p]
  {
    els := [];
    var i := 0;
    while i < |files|
      invariant 0 <= i <= |files|
      invariant els == ElementsFor(files[..i])
      invariant forall k :: 0 <= k < i ==> SvgFolder + files[k] in cache.entries
      invariant forall p :: p in old(cache.entries) ==> p in cache.entries && cache.entries[p] == old(cache.entries)[p]
    {
      var svgPath := SvgFolder + files[i];
      var _ := cache.LoadSvgAsImage(svgPath, outcome(svgPath));
      els := els + [ElementFor(files[i])];
      i := i + 1;
    }
    assert files[..i] == files;
  }

  /** `loadVectorElements`: one element per reachable file, in list order, each with its image cached. */
  method LoadVectorElements(cache: SvgImageCache, ok: string -> bool, outcome: string -> LoadOutcome)
    returns (els: seq<VectorElement>)
    modifies cache
    ensures els == ElementsFor(Reachable(SvgFiles, ok))
    ensures forall e :: e in els ==> GetVectorPath(e, cache.entries).SvgImage?
  {
    var files := GetSvgFileList(ok);
    els := LoadFiles(cache, files, outcome);
  }

  /** `getVectorPath` for an element of this engine. */
  function GetVectorPath(el: VectorElement, cache: map<string, Image>): (r: VectorPath)
    ensures r.SvgImage? <==> el.svgPath.Some? && el.svgPath.value != "" && el.svgPath.value in cache
    ensures r.Text? ==> r.data == el.name
  {
    VectorPathOf(el.svgPath, el.name, cache)
  }
}
