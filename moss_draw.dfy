// What `render` / `renderInstance` of the current TypoMoss renderer decide before
// touching the canvas: colour parsing, the recolour decision and its cache keys,
// the aspect-ratio fit, off-screen culling and the per-instance draw values.
module MossDraw {
  import opened Wrappers
  import opened JsStrings
  import opened MossTypes
  import opened MossAnimation

  // ---- hexToRgb ------------------------------------------------------------------

  /** A parsed colour; each channel is `parseInt(…, 16)`, `None` standing for NaN. */
  datatype Rgb = Rgb(r: Option<int>, g: Option<int>, b: Option<int>)

  /** `hexToRgb`: drop the first '#', trim, then read `rgb` (each digit doubled) or `rrggbb`. */
  function HexToRgb(hex: string): (c: Option<Rgb>)
    ensures hex == [] ==> c.None?
    ensures c.Some? ==> |Trim(ReplaceFirst(hex, "#", ""))| in {3, 6}
  {
    if hex == [] then None else RgbOfBody(Trim(ReplaceFirst(hex, "#", "")))
  }

  /** The digits after the '#': `rgb` with each digit doubled, or `rrggbb`; any other length is no colour. */
  function RgbOfBody(h: string): (c: Option<Rgb>)
    ensures c.Some? <==> |h| in {3, 6}
  {
    if |h| == 3 then Some(Rgb(ParseIntHex([h[0], h[0]]), ParseIntHex([h[1], h[1]]), ParseIntHex([h[2], h[2]])))
    else if |h| == 6 then Some(Rgb(ParseIntHex([h[0], h[1]]), ParseIntHex([h[2], h[3]]), ParseIntHex([h[4], h[5]])))
    else None
  }

  predicate AllHex(h: string) {
    forall i :: 0 <= i < |h| ==> HexDigitValue(h[i]).Some?
  }

  /** Removing the leading '#' of "#" + digits and trimming leaves the digits. */
  lemma HexBody(h: string)
    requires h != [] && AllHex(h)
    ensures Trim(ReplaceFirst("#" + h, "#", "")) == h
  {
    var s := "#" + h;
    assert StartsWith(s, "#");
    assert IndexOf(s, "#") == 0;
    assert ReplaceFirst(s, "#", "") == h;
    assert !IsJsWhitespace(h[0]);
    assert TrimStart(h) == h;
    assert !IsJsWhitespace(h[|h| - 1]);
  }

  /** The channel value of two hexadecimal digits, high digit first. */
  function PairValue(x: char, y: char): (v: nat)
    requires HexDigitValue(x).Some? && HexDigitValue(y).Some?
    ensures v < 256
  {
    16 * HexDigitValue(x).value + HexDigitValue(y).value
  }

  /** `#rrggbb` reads each pair of digits as one channel, high digit first. */
  lemma HexToRgbLong(h: string)
    requires |h| == 6 && AllHex(h)
    ensures HexToRgb("#" + h) ==
      Some(Rgb(Some(PairValue(h[0], h[1])), Some(PairValue(h[2], h[3])), Some(PairValue(h[4], h[5]))))
  {
    HexBody(h);
    LongBodyChannels(h);
  }

  lemma LongBodyChannels(h: string)
    requires |h| == 6 && AllHex(h)
    ensures RgbOfBody(h) ==
      Some(Rgb(Some(PairValue(h[0], h[1])), Some(PairValue(h[2], h[3])), Some(PairValue(h[4], h[5]))))
  {
    ParseHexPair([h[0], h[1]]);
    ParseHexPair([h[2], h[3]]);
    ParseHexPair([h[4], h[5]]);
  }

  /** `#rgb` reads each digit doubled as one channel: 17 times the digit. */
  lemma HexToRgbShort(x: char, y: char, z: char)
    requires HexDigitValue(x).Some? && HexDigitValue(y).Some? && HexDigitValue(z).Some?
    ensures HexToRgb(['#', x, y, z]) ==
      Some(Rgb(Some(17 * HexDigitValue(x).value), Some(17 * HexDigitValue(y).value), Some(17 * HexDigitValue(z).value)))
  {
    var h := [x, y, z];
    assert ['#', x, y, z] == "#" + h;
    HexBody(h);
    ShortBodyChannels(x, y, z);
  }

  lemma ShortBodyChannels(x: char, y: char, z: char)
    requires HexDigitValue(x).Some? && HexDigitValue(y).Some? && HexDigitValue(z).Some?
    ensures RgbOfBody([x, y, z]) ==
      Some(Rgb(Some(17 * HexDigitValue(x).value), Some(17 * HexDigitValue(y).value), Some(17 * HexDigitValue(z).value)))
  {
    DoubledDigit(x);
    DoubledDigit(y);
    DoubledDigit(z);
  }

  lemma DoubledDigit(x: char)
    requires HexDigitValue(x).Some?
    ensures ParseIntHex([x, x]) == Some(17 * HexDigitValue(x).value)
  {
    ParseHexPair([x, x]);
  }

  /** Any other length after trimming gives no colour. */
  lemma HexToRgbBadLength(hex: string)
    requires hex != [] && |Trim(ReplaceFirst(hex, "#", ""))| !in {3, 6}
    ensures HexToRgb(hex).None?
  {
  }

  // ---- recolouring --------------------------------------------------------------

  /** `s || d` for an optional string: absent and empty both give the default. */
  function StrOr(s: Option<string>, d: string): (r: string)
    ensures s.Some? && s.value != [] ==> r == s.value
    ensures (s.None? || s.value == []) ==> r == d
  {
    if s.Some? && s.value != [] then s.value else d
  }

  /** `customData.defaultColor || '#1AB551'`. */
  function DefaultColorOf(el: VectorElement): (c: string)
    ensures c != []
    ensures c == PrimaryGreen || Some(c) == el.defaultColor
  {
    StrOr(el.defaultColor, PrimaryGreen)
  }

  /** `element.color || defaultColor`. */
  function TargetColor(el: VectorElement): (c: string)
    ensures c != []
    ensures Some(c) == el.color || c == DefaultColorOf(el)
  {
    StrOr(el.color, DefaultColorOf(el))
  }

  /** An SVG element is drawn recoloured when its colour differs from its default, ignoring case. */
  function NeedsRecolor(el: VectorElement): (b: bool)
    ensures b ==> el.color.Some? && el.color.value != [] && el.svgPath.Some? && el.svgPath.value != []
  {
    el.svgPath.Some? && el.svgPath.value != [] && TargetColor(el) != [] &&
    ToLowerAscii(TargetColor(el)) != ToLowerAscii(DefaultColorOf(el))
  }

  /** Without a colour override, or with the default colour in another case, nothing is recoloured. */
  lemma NoRecolorAtDefault(el: VectorElement)
    requires el.color.None? || ToLowerAscii(el.color.value) == ToLowerAscii(DefaultColorOf(el))
    ensures !NeedsRecolor(el)
  {
  }

  /** The key of a recoloured image: `${svgPath}::${color}`. */
  function RecolorKey(svgPath: string, color: string): (k: string)
    ensures StartsWith(k, svgPath + "::")
  {
    assert (svgPath + "::" + color)[..|svgPath + "::"|] == svgPath + "::";
    svgPath + "::" + color
  }

  /** The cache keys left after deleting every key that starts with `prefix`. */
  function RemovePrefixed(keys: set<string>, prefix: string): (r: set<string>)
    ensures r <= keys
    ensures forall k :: k in keys ==> (k in r <==> !StartsWith(k, prefix))
  {
    set k | k in keys && !StartsWith(k, prefix)
  }

  /** Clearing a path's prefix drops every recoloured image of that path, whatever its colour. */
  lemma RecolorKeysOfPathCleared(keys: set<string>, svgPath: string, color: string)
    ensures RecolorKey(svgPath, color) !in RemovePrefixed(keys, svgPath + "::")
  {
  }

  // ---- aspect fit and culling ------------------------------------------------------

  /** Draw width and height of an image of `w × h` inside a `size × size` box, keeping its ratio. */
  function AspectFit(size: real, w: real, h: real): (r: (real, real))
    requires w > 0.0 && h > 0.0
    ensures size >= 0.0 ==> r.0 <= size && r.1 <= size
    ensures r.0 * h == r.1 * w
    ensures r.0 == size || r.1 == size
  {
    var aspect := w / h;
    var dh := size / aspect;
    if dh > size then
      assert size * aspect * h == size * w;
      assert size >= 0.0 ==> size * aspect <= size by {
        if size >= 0.0 {
          WideImage(size, aspect);
        }
      }
      (size * aspect, size)
    else
      assert dh * aspect == size;
      assert size * h == dh * w;
      (size, dh)
  }

  /** When height over ratio overflows a non-negative box, the ratio is below one. */
  lemma WideImage(size: real, aspect: real)
    requires aspect > 0.0 && size >= 0.0 && size / aspect > size
    ensures size * aspect <= size
  {
    var q := size / aspect;
    assert q * aspect == size;
    var d := q - size;
    assert d * aspect > 0.0;
    assert q * aspect == size * aspect + d * aspect;
    assert size == size * aspect + d * aspect;
    assert size * aspect < size;
  }

  /** `render`'s culling test: the instance's box of half-width `margin` lies wholly off one side. */
  predicate IsCulled(x: real, y: real, margin: real, width: real, height: real) {
    x + margin < 0.0 || x - margin > width || y + margin < 0.0 || y - margin > height
  }

  /** An instance is kept exactly when its centre lies within one margin of the canvas on both axes. */
  lemma KeptInBox(x: real, y: real, margin: real, width: real, height: real)
    ensures !IsCulled(x, y, margin, width, height) <==>
      -margin <= x <= width + margin && -margin <= y <= height + margin
  {
  }

  /** An instance centred on the canvas is never culled. */
  lemma CenteredNeverCulled(x: real, y: real, margin: real, width: real, height: real)
    requires 0.0 <= x <= width && 0.0 <= y <= height && margin >= 0.0
    ensures !IsCulled(x, y, margin, width, height)
  {
  }

  // ---- draw values -----------------------------------------------------------------

  /** `animProps.opacity || 1`, as `render` computes it. */
  function DrawOpacityAsWritten(props: AnimProps): (o: real)
    ensures props.opacity != 0.0 ==> o == props.opacity
    ensures props.opacity == 0.0 ==> o == 1.0
  {
    OrNum(props.opacity, 1.0)
  }

  /** The opacity the curves intend: the curve's value itself (`?? 1` on a value that is always present). */
  function DrawOpacity(props: AnimProps): (o: real)
    ensures o == props.opacity
  {
    props.opacity
  }

  /** `animProps.scale || 1`. */
  function DrawScale(props: AnimProps): (s: real)
    ensures s != 0.0
    ensures props.scale != 0.0 ==> s == props.scale
  {
    OrNum(props.scale, 1.0)
  }

  /** `animProps.rotation || instance.rotation`. */
  function DrawRotation(props: AnimProps, inst: RenderInstance): (a: real)
    ensures props.rotation.Some? && props.rotation.value != 0.0 ==> a == props.rotation.value
    ensures (props.rotation.None? || props.rotation.value == 0.0) ==> a == inst.rotation
  {
    if props.rotation.Some? && props.rotation.value != 0.0 then props.rotation.value else inst.rotation
  }

  /** As written, a rotate or pulse instance whose fade-out has finished is drawn fully opaque. */
  lemma FadedOutDrawnOpaque(inst: RenderInstance, mode: Mode, math: MathLib)
    requires math.Lawful() && mode in {Rotate, Pulse} && 0 < inst.lifespan <= inst.age
    ensures AnimationProperties(inst, mode, math).opacity == 0.0
    ensures DrawOpacityAsWritten(AnimationProperties(inst, mode, math)) == 1.0
  {
  }

  /** With the intended opacity the drawn value is the curve's, so it stays in [0, 1] and a finished fade stays invisible. */
  lemma DrawOpacityFollowsCurve(inst: RenderInstance, mode: Mode, math: MathLib)
    requires math.Lawful() && inst.age >= 0
    ensures 0.0 <= DrawOpacity(AnimationProperties(inst, mode, math)) <= 1.0
    ensures mode in {Rotate, Pulse} && 0 < inst.lifespan <= inst.age ==>
      DrawOpacity(AnimationProperties(inst, mode, math)) == 0.0
  {
    AnimationBounded(inst, mode, math);
  }

  // ---- the render pass ----------------------------------------------------------------

  /** One `renderInstance` call: where, how turned, how large and how opaque. */
  datatype DrawCall = DrawCall(instanceId: nat, x: real, y: real, rotation: real, scale: real, opacity: real)

  /** `new Map(elements.map(e => [e.id, e]))`: by id, a later element replacing an earlier one. */
  function ElementMap(es: seq<VectorElement>): (m: map<string, VectorElement>)
    ensures forall e :: e in es ==> e.id in m
    ensures forall id :: id in m ==> m[id] in es && m[id].id == id
    ensures es != [] ==> m[es[|es| - 1].id] == es[|es| - 1]
  {
    if es == [] then map[]
    else
      var last := es[|es| - 1];
      var init := es[..|es| - 1];
      assert forall e :: e in es ==> e in init || e == last;
      ElementMap(init)[last.id := last]
  }

  /** The draw call of one instance, unless its element is unknown or it is off-screen. */
  function DrawOf(inst: RenderInstance, elements: map<string, VectorElement>, width: real, height: real, math: MathLib)
    : (r: Option<DrawCall>)
    requires math.Lawful()
    ensures r.Some? <==> (inst.elementId in elements &&
      !IsCulled(inst.x, inst.y, inst.size * DrawScale(AnimationProperties(inst, inst.animationMode, math)), width, height))
    ensures r.Some? ==> r.value.instanceId == inst.id && r.value.x == inst.x && r.value.y == inst.y
    ensures r.Some? ==> r.value.opacity == DrawOpacityAsWritten(AnimationProperties(inst, inst.animationMode, math))
  {
    DrawWith(inst, AnimationProperties(inst, inst.animationMode, math), elements, width, height)
  }

  /** The body of `drawInstance` once the animation properties are known. */
  function DrawWith(inst: RenderInstance, props: AnimProps, elements: map<string, VectorElement>, width: real, height: real)
    : (r: Option<DrawCall>)
    ensures r.Some? <==> (inst.elementId in elements && !IsCulled(inst.x, inst.y, inst.size * DrawScale(props), width, height))
    ensures r.Some? ==> r.value.instanceId == inst.id && r.value.x == inst.x && r.value.y == inst.y
    ensures r.Some? ==> r.value.opacity == DrawOpacityAsWritten(props)
  {
    if inst.elementId !in elements then None
    else
      var scale := DrawScale(props);
      if IsCulled(inst.x, inst.y, inst.size * scale, width, height) then None
      else
        Some(DrawCall(inst.id, inst.x, inst.y, DrawRotation(props, inst), scale, DrawOpacityAsWritten(props)))
  }

  /** As written, whatever is drawn is drawn visible: the opacity lies in (0, 1], never 0, even for a finished fade-out. */
  lemma DrawnVisible(inst: RenderInstance, elements: map<string, VectorElement>, width: real, height: real, math: MathLib)
    requires math.Lawful() && inst.age >= 0
    ensures var r := DrawOf(inst, elements, width, height, math);
      r.Some? ==> 0.0 < r.value.opacity <= 1.0
  {
    AnimationBounded(inst, inst.animationMode, math);
  }

  /** The draw calls of a frame, in store order. */
  function RenderList(insts: seq<RenderInstance>, elements: map<string, VectorElement>, width: real, height: real, math: MathLib)
    : (r: seq<DrawCall>)
    requires math.Lawful()
    ensures |r| <= |insts|
    ensures forall c :: c in r ==> exists i :: i in insts && DrawOf(i, elements, width, height, math) == Some(c)
  {
    if insts == [] then []
    else
      var head := DrawOf(insts[0], elements, width, height, math);
      (if head.Some? then [head.value] else []) + RenderList(insts[1..], elements, width, height, math)
  }

  /** Every instance of a known element whose box reaches the canvas is drawn. */
  lemma {:induction false} RenderListComplete(insts: seq<RenderInstance>, elements: map<string, VectorElement>,
                                              width: real, height: real, math: MathLib, inst: RenderInstance)
    requires math.Lawful() && inst in insts && inst.elementId in elements
    requires !IsCulled(inst.x, inst.y, inst.size * DrawScale(AnimationProperties(inst, inst.animationMode, math)), width, height)
    ensures exists c :: c in RenderList(insts, elements, width, height, math) && c.instanceId == inst.id
  {
    var head := DrawOf(insts[0], elements, width, height, math);
    if insts[0] == inst {
      assert head.Some?;
      assert head.value in RenderList(insts, elements, width, height, math);
    } else {
      RenderListComplete(insts[1..], elements, width, height, math, inst);
      var c :| c in RenderList(insts[1..], elements, width, height, math) && c.instanceId == inst.id;
      assert c in RenderList(insts, elements, width, height, math);
    }
  }

  /** Instances with distinct ids give draw calls with distinct ids: no instance is drawn twice in a frame. */
  lemma {:induction false} RenderListDistinct(insts: seq<RenderInstance>, elements: map<string, VectorElement>,
                                              width: real, height: real, math: MathLib)
    requires math.Lawful()
    requires forall i, j :: 0 <= i < j < |insts| ==> insts[i].id != insts[j].id
    ensures DistinctCalls(RenderList(insts, elements, width, height, math))
  {
    if insts != [] {
      var tail := insts[1..];
      assert forall i, j :: 0 <= i < j < |tail| ==> tail[i].id != tail[j].id by {
        assert forall i :: 0 <= i < |tail| ==> tail[i] == insts[i + 1];
      }
      RenderListDistinct(tail, elements, width, height, math);
      var rest := RenderList(tail, elements, width, height, math);
      var head := DrawOf(insts[0], elements, width, height, math);
      assert RenderList(insts, elements, width, height, math) == (if head.Some? then [head.value] else []) + rest;
      if head.Some? {
        forall c | c in rest
          ensures c.instanceId != head.value.instanceId
        {
          var i :| i in tail && DrawOf(i, elements, width, height, math) == Some(c);
          var k :| 0 <= k < |tail| && tail[k] == i;
          assert insts[k + 1] == i;
        }
        ConsDistinctIds(head.value, rest);
      }
    }
  }

  /** No two draw calls of a frame are for the same instance. */
  predicate DistinctCalls(r: seq<DrawCall>) {
    forall i, j :: 0 <= i < j < |r| ==> r[i].instanceId != r[j].instanceId
  }

  /** A call whose id no call of `rest` carries can go in front of `rest` keeping the ids distinct. */
  lemma ConsDistinctIds(c: DrawCall, rest: seq<DrawCall>)
    requires DistinctCalls(rest)
    requires forall x :: x in rest ==> x.instanceId != c.instanceId
    ensures DistinctCalls([c] + rest)
  {
    var r := [c] + rest;
    forall i, j | 0 <= i < j < |r|
      ensures r[i].instanceId != r[j].instanceId
    {
      assert r[j] == rest[j - 1];
      if i > 0 {
        assert r[i] == rest[i - 1];
      }
    }
  }
}
