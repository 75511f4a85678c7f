// The animation curves of the older TypoMoss engine. A non-empty element name picks
// one of three name categories (sticker, circle, grow) and the mode is then ignored;
// without a name the instance's mode picks the layered, pulse or flicker curve.
// `Math.random` (the sticker jitter) is a parameter.
module LegacyAnimation {
  import opened Wrappers
  import opened JsStrings
  import MossAnimation
  import opened LegacyTypes

  /** The record `getAnimationProperties` returns; keys a curve does not set are `None`. */
  datatype LegacyProps = LegacyProps(
    scale: real,
    opacity: real,
    rotation: Option<real>,
    offsetX: Option<real>,
    offsetY: Option<real>,
    zIndex: Option<int>)

  datatype Category = Sticker | Circle | GrowCategory

  /** `getElementCategory`: lower-case the name, then 'sticker' before 'circle', else grow. */
  function ElementCategory(name: string): (c: Category)
    ensures c == Sticker <==> Includes(ToLowerAscii(name), "sticker")
    ensures c == Circle <==> !Includes(ToLowerAscii(name), "sticker") && Includes(ToLowerAscii(name), "circle")
  {
    var lower := ToLowerAscii(name);
    if Includes(lower, "sticker") then Sticker
    else if Includes(lower, "circle") then Circle
    else GrowCategory
  }

  /** `animateSticker`: near-full size, opaque at once, jittered by less than one pixel each way. */
  function AnimateSticker(p: real, jx: real, jy: real): (r: LegacyProps)
    requires 0.0 <= jx < 1.0 && 0.0 <= jy < 1.0
    ensures 0.0 <= p <= 1.0 ==> 0.8 <= r.scale <= 1.0
    ensures r.opacity == 1.0 && r.rotation == Some(0.0) && r.zIndex.None?
    ensures r.offsetX.Some? && -1.0 <= r.offsetX.value < 1.0
    ensures r.offsetY.Some? && -1.0 <= r.offsetY.value < 1.0
  {
    LegacyProps(0.8 + p * 0.2, 1.0, Some(0.0), Some((jx - 0.5) * 2.0), Some((jy - 0.5) * 2.0), None)
  }

  /** `animateCircle`: from 0.9 to full size, fading in by 1.5p, two turns over the lifespan. */
  function AnimateCircle(p: real): (r: LegacyProps)
    ensures 0.0 <= p <= 1.0 ==> 0.9 <= r.scale <= 1.0
    ensures r.opacity <= 1.0 && (p * 1.5 <= 1.0 ==> r.opacity == p * 1.5)
    ensures r.rotation.Some? && r.rotation.value == 720.0 * p
    ensures r.offsetX.None? && r.zIndex.None?
  {
    LegacyProps(0.9 + p * 0.1, Min(1.0, p * 1.5), Some(p * 360.0 * 2.0), None, None, None)
  }

  /** `animateGrow`: from 0.1 to full size behind the others, fading in by 2p. */
  function AnimateGrow(p: real): (r: LegacyProps)
    ensures 0.0 <= p <= 1.0 ==> 0.1 <= r.scale <= 1.0
    ensures r.opacity <= 1.0 && (p <= 0.5 ==> r.opacity == 2.0 * p)
    ensures r.rotation == Some(0.0) && r.zIndex == Some(-1) && r.offsetX.None?
  {
    LegacyProps(0.1 + p * 0.9, Min(1.0, p * 2.0), Some(0.0), None, None, Some(-1))
  }

  function Min(a: real, b: real): (m: real)
    ensures m <= a && m <= b && (m == a || m == b)
  {
    if a <= b then a else b
  }

  function Max(a: real, b: real): (m: real)
    ensures m >= a && m >= b && (m == a || m == b)
  {
    if a >= b then a else b
  }

  /** `animateLayered`: ease-out from 0.8 to full size, opaque from the middle of the lifespan. */
  function AnimateLayered(p: real): (r: LegacyProps)
    ensures 0.0 <= p <= 1.0 ==> 0.8 <= r.scale <= 1.0
    ensures p < 0.5 ==> r.opacity == 2.0 * p
    ensures p >= 0.5 ==> r.opacity == 1.0
    ensures r.rotation.None? && r.offsetX.None? && r.zIndex.None?
  {
    var eased := 1.0 - (1.0 - p) * (1.0 - p);
    assert 0.0 <= p <= 1.0 ==> 0.0 <= (1.0 - p) * (1.0 - p) <= 1.0 by {
      if 0.0 <= p <= 1.0 {
        SquareUnit(1.0 - p);
      }
    }
    LegacyProps(0.8 + eased * 0.2, if p < 0.5 then p * 2.0 else 1.0, None, None, None, None)
  }

  lemma SquareUnit(x: real)
    requires 0.0 <= x <= 1.0
    ensures 0.0 <= x * x <= x
  {
  }

  /** The ease-in-out curve of `animatePulse`. */
  function PulseEase(p: real): (e: real)
    ensures 0.0 <= p <= 1.0 ==> 0.0 <= e <= 1.0
    ensures 0.0 <= p < 0.5 ==> e < 0.5
  {
    if p < 0.5 then
      assert 0.0 <= p < 0.5 ==> p * p < 0.25 by {
        if 0.0 <= p < 0.5 {
          SquareUnit(p);
        }
      }
      2.0 * p * p
    else
      assert -1.0 + (4.0 - 2.0 * p) * p == 1.0 - 2.0 * (1.0 - p) * (1.0 - p);
      assert 0.5 <= p <= 1.0 ==> (1.0 - p) * (1.0 - p) <= 0.5 by {
        if 0.5 <= p <= 1.0 {
          SquareUnit(1.0 - p);
        }
      }
      -1.0 + (4.0 - 2.0 * p) * p
  }

  /** `animatePulse` as written: the fade-in coefficient 1.67 overshoots 1 just before progress 0.3. */
  function PulseOpacityAsWritten(p: real): (o: real)
    ensures p >= 0.3 ==> 0.3 <= o
  {
    if p < 0.3 then 0.5 + p * 1.67 else Max(0.8 - p * 0.4, 0.3)
  }

  /** The fade-in from 0.5 reaching exactly 1 at progress 0.3 (coefficient 1/0.6), then the slow fade to 0.3. */
  function PulseOpacity(p: real): (o: real)
    ensures 0.0 <= p <= 1.0 ==> 0.3 <= o <= 1.0
    ensures 0.0 <= p < 0.3 ==> 0.5 <= o < 1.0
    ensures p >= 0.3 ==> o == Max(0.8 - p * 0.4, 0.3)
  {
    if p < 0.3 then 0.5 + p / 0.6 else Max(0.8 - p * 0.4, 0.3)
  }

  /** At age 539 of 1800 the as-written pulse opacity exceeds 1. */
  lemma PulseOpacityOvershoots()
    ensures var p := MossAnimation.Progress(539, 1800); PulseOpacityAsWritten(p) > 1.0
  {
    var p := MossAnimation.Progress(539, 1800);
    assert p == 539.0 / 1800.0;
  }

  /** Before progress 0.3 the written coefficient and the intended one differ by less than 0.0011. */
  lemma PulseOpacityClose(p: real)
    requires 0.0 <= p < 0.3
    ensures 0.0 <= PulseOpacityAsWritten(p) - PulseOpacity(p) < 0.0011
  {
  }

  /** `animatePulse` as written: scale eased between 0.6 and 1.2; the opacity may pass 1 by less than 0.0011. */
  function AnimatePulse(p: real): (r: LegacyProps)
    ensures 0.0 <= p <= 1.0 ==> PulseScaleMin <= r.scale <= PulseScaleMax && 0.3 <= r.opacity < 1.0011
    ensures r.opacity == PulseOpacityAsWritten(p)
    ensures r.rotation.None? && r.offsetX.None? && r.zIndex.None?
  {
    assert 0.0 <= p <= 1.0 ==> PulseOpacityAsWritten(p) < 1.0011 by {
      if 0.0 <= p < 0.3 {
        PulseOpacityClose(p);
      }
    }
    LegacyProps(PulseScaleMin + (PulseScaleMax - PulseScaleMin) * PulseEase(p), PulseOpacityAsWritten(p), None, None, None, None)
  }

  /** JavaScript `x % 1`: the fractional part, carrying the sign of `x`. */
  function FracPart(x: real): (f: real)
    ensures x >= 0.0 ==> 0.0 <= f < 1.0
    ensures x < 0.0 ==> -1.0 < f <= 0.0
  {
    if x >= 0.0 then x - x.Floor as real else -((-x) - (-x).Floor as real)
  }

  /** `animateFlicker`: on in the first half of each phase, dimmed to 30% in the second. */
  function AnimateFlicker(p: real, seed: real): (r: LegacyProps)
    ensures r.opacity == p * 0.9 + 0.1 || r.opacity == (p * 0.9 + 0.1) * 0.3
    ensures 0.0 <= p <= 1.0 ==> 0.5 <= r.scale <= 1.0 && 0.03 <= r.opacity <= 1.0
    ensures r.rotation.None? && r.offsetX.None? && r.zIndex.None?
  {
    var phase := FracPart((p * seed + p) / FlickerFrequency);
    var base := p * 0.9 + 0.1;
    LegacyProps(0.5 + p * 0.5, if phase < 0.5 then base else base * 0.3, None, None, None, None)
  }

  /** `if (elementName)`: absent and empty names are falsy. */
  predicate Truthy(name: Option<string>) {
    name.Some? && name.value != ""
  }

  /** `getAnimationProperties`: the name category first, the mode only when the name is falsy. */
  function AnimationProperties(inst: LegacyInstance, mode: LegacyMode, name: Option<string>, jx: real, jy: real): (r: LegacyProps)
    requires 0.0 <= jx < 1.0 && 0.0 <= jy < 1.0
    ensures var p := MossAnimation.Progress(inst.age, inst.lifespan);
      Truthy(name) ==>
        r == match ElementCategory(name.value)
             case Sticker => AnimateSticker(p, jx, jy)
             case Circle => AnimateCircle(p)
             case GrowCategory => AnimateGrow(p)
    ensures var p := MossAnimation.Progress(inst.age, inst.lifespan);
      !Truthy(name) ==>
        r == match mode
             case LegacyLayered => AnimateLayered(p)
             case LegacyPulse => AnimatePulse(p)
             case LegacyFlicker => AnimateFlicker(p, inst.seed)
  {
    var p := MossAnimation.Progress(inst.age, inst.lifespan);
    if Truthy(name) then
      match ElementCategory(name.value)
      case Sticker => AnimateSticker(p, jx, jy)
      case Circle => AnimateCircle(p)
      case GrowCategory => AnimateGrow(p)
    else
      match mode
      case LegacyLayered => AnimateLayered(p)
      case LegacyPulse => AnimatePulse(p)
      case LegacyFlicker => AnimateFlicker(p, inst.seed)
  }

  /** With a non-empty name the stored mode makes no difference. */
  lemma NameOverridesMode(inst: LegacyInstance, m1: LegacyMode, m2: LegacyMode, name: string, jx: real, jy: real)
    requires name != "" && 0.0 <= jx < 1.0 && 0.0 <= jy < 1.0
    ensures AnimationProperties(inst, m1, Some(name), jx, jy) == AnimationProperties(inst, m2, Some(name), jx, jy)
  {
  }

  /**
   * For an instance that has not aged backwards, every curve keeps scale in [0.1, 1.2];
   * opacity stays at most 1 except for the written pulse fade-in, which passes 1 by less than 0.0011.
   */
  lemma LegacyAnimationBounded(inst: LegacyInstance, mode: LegacyMode, name: Option<string>, jx: real, jy: real)
    requires 0.0 <= jx < 1.0 && 0.0 <= jy < 1.0 && inst.age >= 0
    ensures var r := AnimationProperties(inst, mode, name, jx, jy);
      0.1 <= r.scale <= 1.2 && r.opacity < 1.0011
    ensures var r := AnimationProperties(inst, mode, name, jx, jy);
      (Truthy(name) || mode != LegacyPulse) ==> r.opacity <= 1.0
  {
    var p := MossAnimation.Progress(inst.age, inst.lifespan);
    assert 0.0 <= p <= 1.0;
    if !Truthy(name) && mode == LegacyFlicker {
      assert 0.1 <= p * 0.9 + 0.1 <= 1.0;
    }
  }
}
