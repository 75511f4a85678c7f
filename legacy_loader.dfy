// The vector loader of the older TypoMoss engine: a fixed file list preloaded without
// probing, a three-way mode choice by file name, and the same cache and text fallback
// as the current loader. How an image load ends is a parameter.
module LegacyLoader {
  import opened Wrappers
  import opened JsStrings
  import opened LegacyTypes
  import opened SvgCache

  /** `SVG_FOLDER` of the older engine. */
  const SvgFolder := "/portfolio_image/typomoss/"

  /** `SVG_FILES`: every listed file is loaded; nothing is probed first. */
  const SvgFiles: seq<string> := [
    "vector_sticker_1.svg", "vector_sticker_2.svg", "vector_sticker_3.svg",
    "vector_circle_1.svg", "vector_circle_2.svg",
    "vector_4.svg", "vector_5.svg", "vector_6.svg", "vector_7.svg",
    "vector_8.svg", "vector_9.svg", "vector_10.svg"]

  /** `getAnimationModeFromName`: 'sticker' layers, 'circle' pulses, anything else flickers. */
  function ModeFromName(filename: string): (m: LegacyMode)
    ensures m == LegacyLayered <==> Includes(filename, "sticker")
    ensures m == LegacyPulse <==> !Includes(filename, "sticker") && Includes(filename, "circle")
    ensures m == LegacyFlicker <==> !Includes(filename, "sticker") && !Includes(filename, "circle")
  {
    if Includes(filename, "sticker") then LegacyLayered
    else if Includes(filename, "circle") then LegacyPulse
    else LegacyFlicker
  }

  /** The element `loadVectorElements` builds for one file. */
  function ElementFor(filename: string): (el: LegacyElement)
    ensures el.name == StripSvg(filename) && el.id == "svg-" + el.name
    ensures el.animationMode == ModeFromName(filename)
    ensures el.color == Some("#1AB551") && el.weight == Some(2.0)
    ensures el.svgPath == Some(SvgFolder + filename)
  {
    var name := StripSvg(filename);
    LegacyElement("svg-" + name, name, ModeFromName(filename), Some("#1AB551"), Some(2.0), Some(SvgFolder + filename))
  }

  function ElementsFor(files: seq<string>): (els: seq<LegacyElement>)
    ensures |els| == |files|
    ensures forall i :: 0 <= i < |files| ==> els[i] == ElementFor(files[i])
  {
    seq(|files|, i requires 0 <= i < |files| => ElementFor(files[i]))
  }

  /** The loop of `loadVectorElements` over a file list: preload each image, then build its element. */
  method LoadFiles(cache: SvgImageCache, files: seq<string>, outcome: string -> LoadOutcome) returns (els: seq<LegacyElement>)
    modifies cache
    ensures els == ElementsFor(files)
    ensures forall f :: f in files ==> SvgFolder + f in cache.entries
    ensures forall p :: p in old(cache.entries) ==> p in cache.entries && cache.entries[p] == old(cache.entries)[p]
  {
    els := [];
    var i := 0;
    while i < |files|
      invariant 0 <= i <= |files|
      invariant els == ElementsFor(files[..i])
      invariant forall k :: 0 <= k < i ==> SvgFolder + files[k] in cache.entries
      invariant forall p :: p in old(cache.entries) ==> p in cache.entries && cache.entries[p] == old(cache.entries)[p]
    {
      var svgPath := SvgFolder + files[i];
      var _ := cache.LoadSvgAsImage(svgPath, outcome(svgPath));
      els := els + [ElementFor(files[i])];
      i := i + 1;
    }
    assert files[..i] == files;
  }

  /** `loadVectorElements`: every listed file is preloaded and gets its element, in list order; a load never rejects. */
  method LoadVectorElements(cache: SvgImageCache, outcome: string -> LoadOutcome) returns (els: seq<LegacyElement>)
    modifies cache
    ensures els == ElementsFor(SvgFiles) && |els| == 12
    ensures forall e :: e in els ==> GetVectorPath(e, cache.entries).SvgImage?
  {
    els := LoadFiles(cache, SvgFiles, outcome);
  }

  /** `getVectorPath`: the cached image for a non-empty, cached `svgPath`, else the element name as text. */
  function GetVectorPath(el: LegacyElement, cache: map<string, Image>): (r: VectorPath)
    ensures r.SvgImage? <==> el.svgPath.Some? && el.svgPath.value != "" && el.svgPath.value in cache
    ensures r.Text? ==> r.data == el.name
  {
    VectorPathOf(el.svgPath, el.name, cache)
  }
}
