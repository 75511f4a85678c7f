// The SVG image cache both vector loaders keep: a map from SVG path to a loaded image,
// filled by `loadSVGAsImage` and read by `getVectorPath`. Image decoding is outside
// the model: the outcome of loading a path (its image, or an error) is a parameter.
module SvgCache {
  import opened Wrappers
  import opened JsStrings

  /** A loaded image, by its intrinsic size. */
  datatype Image = Image(width: nat, height: nat)

  /** What the browser reports for `img.src = path`: `onload` with the image, or `onerror`. */
  datatype LoadOutcome = Loads(img: Image) | LoadError

  /** The blank image cached and returned when a load fails. */
  const Fallback := Image(100, 100)

  /** The image a load settles on: the decoded one, or the fallback. */
  function Settled(outcome: LoadOutcome): (img: Image)
    ensures outcome.LoadError? ==> img == Fallback
    ensures outcome.Loads? ==> img == outcome.img
  {
    match outcome
    case Loads(img) => img
    case LoadError => Fallback
  }

  /** What `getVectorPath` hands the renderer: the cached SVG image, or the element name as text. */
  datatype VectorPath = SvgImage(img: Image) | Text(data: string)

  /** `getVectorPath`: the cached image when the element has a non-empty, cached `svgPath`; else its name. */
  function VectorPathOf(svgPath: Option<string>, name: string, cache: map<string, Image>): (r: VectorPath)
    ensures r.SvgImage? <==> svgPath.Some? && svgPath.value != "" && svgPath.value in cache
    ensures r.SvgImage? ==> r.img == cache[svgPath.value]
    ensures r.Text? ==> r.data == name
  {
    if svgPath.Some? && svgPath.value != "" && svgPath.value in cache then SvgImage(cache[svgPath.value])
    else Text(name)
  }

  /** A larger cache never turns an SVG path back into text, nor changes the image it finds. */
  lemma VectorPathStable(svgPath: Option<string>, name: string, cache: map<string, Image>, bigger: map<string, Image>)
    requires forall p :: p in cache ==> p in bigger && bigger[p] == cache[p]
    ensures VectorPathOf(svgPath, name, cache).SvgImage? ==>
      VectorPathOf(svgPath, name, bigger) == VectorPathOf(svgPath, name, cache)
  {
  }

  /** `filename.replace('.svg', '')`, the element name both loaders derive: the first ".svg" removed. */
  function StripSvg(filename: string): (id: string)
    ensures !Includes(filename, ".svg") ==> id == filename
    ensures Includes(filename, ".svg") ==> |id| + 4 == |filename|
  {
    ReplaceFirst(filename, ".svg", "")
  }

  /** A stem without a dot followed by ".svg" strips back to the stem. */
  lemma StripSvgOfStem(stem: string)
    requires forall i :: 0 <= i < |stem| ==> stem[i] != '.'
    ensures StripSvg(stem + ".svg") == stem
  {
    var s := stem + ".svg";
    var k := IndexOf(s, ".svg");
    IndexOfFirst(s, ".svg");
    assert s[|stem|..] == ".svg";
    assert StartsWith(s[|stem|..], ".svg");
    assert k >= 0;
    assert s[k] == s[k..k + 4][0] == '.';
    assert forall j :: 0 <= j < |stem| ==> s[j] == stem[j];
    assert k == |stem|;
    assert s[..k] == stem && s[k + 4..] == [];
  }

  /** Distinct dot-free stems give distinct `svg-` ids. */
  lemma StemIdsDistinct(a: string, b: string)
    requires forall i :: 0 <= i < |a| ==> a[i] != '.'
    requires forall i :: 0 <= i < |b| ==> b[i] != '.'
    requires a != b
    ensures "svg-" + StripSvg(a + ".svg") != "svg-" + StripSvg(b + ".svg")
  {
    StripSvgOfStem(a);
    StripSvgOfStem(b);
    assert ("svg-" + a)[4..] == a && ("svg-" + b)[4..] == b;
  }

  /** `SVG_IMAGE_CACHE`, the module-level map of a loader. */
  class SvgImageCache {
    var entries: map<string, Image>

    constructor ()
      ensures entries == map[]
    {
      entries := map[];
    }

    /** `loadSVGAsImage`: a cached path returns its image untouched; otherwise the load's image (or the fallback) is cached and returned. It never rejects. */
    method LoadSvgAsImage(svgPath: string, outcome: LoadOutcome) returns (img: Image)
      modifies this
      ensures svgPath in old(entries) ==> img == old(entries)[svgPath] && entries == old(entries)
      ensures svgPath !in old(entries) ==> img == Settled(outcome) && entries == old(entries)[svgPath := img]
      ensures svgPath in entries && entries[svgPath] == img
    {
      if svgPath in entries {
        return entries[svgPath];
      }
      img := Settled(outcome);
      entries := entries[svgPath := img];
    }
  }
}
