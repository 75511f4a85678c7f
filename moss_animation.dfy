// The per-frame animation curves of the current TypoMoss engine: a pure map from an
// instance's progress (age over lifespan) to scale, opacity and rotation.
module MossAnimation {
  import opened Wrappers
  import opened MossTypes

  /** Scale, opacity and, when the curve supplies one, a rotation. */
  datatype AnimProps = AnimProps(scale: real, opacity: real, rotation: Option<real>)

  /** `calculateAnimationProgress(age, maxAge)`. */
  function Progress(age: int, maxAge: int): (p: real)
    ensures p <= 1.0
    ensures maxAge <= 0 ==> p == 1.0
    ensures maxAge > 0 && age >= maxAge ==> p == 1.0
    ensures maxAge > 0 && 0 <= age ==> 0.0 <= p
    ensures maxAge > 0 && age < maxAge ==> p * maxAge as real == age as real
  {
    if maxAge <= 0 then 1.0
    else
      var q := age as real / maxAge as real;
      if q < 1.0 then q else 1.0
  }

  /** `animateLayered`: appears at once and keeps the rotation fixed at creation. */
  function AnimateLayered(inst: RenderInstance): (r: AnimProps)
    ensures r.scale == 1.0 && r.opacity == 1.0 && r.rotation == Some(inst.rotation)
  {
    AnimProps(1.0, 1.0, Some(inst.rotation))
  }

  /** `animateRotate`: grows in over the first 20%, holds, then grows and fades over the last 20%. */
  function AnimateRotate(p: real, pi: real): (r: AnimProps)
    ensures p == 0.0 ==> r.scale == 0.3 && r.opacity == 0.0
    ensures 0.0 <= p < 0.2 ==> 0.3 <= r.scale < 1.0 && 0.0 <= r.opacity < 1.0
    ensures 0.2 <= p <= 0.8 ==> r.scale == 1.0 && r.opacity == 1.0
    ensures 0.8 < p <= 1.0 ==> 1.0 < r.scale <= 1.5 && 0.0 <= r.opacity < 1.0
    ensures p == 1.0 ==> r.scale == 1.5 && r.opacity == 0.0
    ensures r.rotation == Some(p * pi * 2.0 * RotateRotationSpeed)
  {
    var rotation := p * pi * 2.0 * RotateRotationSpeed;
    if p < 0.2 then
      var f := p / 0.2;
      AnimProps(0.3 + f * 0.7, f, Some(rotation))
    else if p > 0.8 then
      var f := (p - 0.8) / (1.0 - 0.8);
      AnimProps(1.0 + f * 0.5, 1.0 - f, Some(rotation))
    else
      AnimProps(1.0, 1.0, Some(rotation))
  }

  /** `animatePulse`: grows in over 30%, bounces to at most 1.15 until 50%, shrinks and fades after 85%. */
  function AnimatePulse(p: real, math: MathLib): (r: AnimProps)
    requires math.Lawful()
    ensures r.rotation.None?
    ensures p < 0.3 ==> r.scale == p / 0.3 && r.opacity == p / 0.3
    ensures 0.3 <= p < 0.5 ==> r.opacity == 1.0 && 1.0 <= r.scale <= 1.0 + PulseBounceAmount
    ensures 0.5 <= p <= 0.85 ==> r.scale == 1.0 && r.opacity == 1.0
    ensures 0.85 < p <= 1.0 ==> 0.3 <= r.scale < 1.0 && 0.0 <= r.opacity < 1.0
    ensures p == 1.0 ==> r.scale == 0.3 && r.opacity == 0.0
  {
    if p < 0.3 then
      var f := p / 0.3;
      AnimProps(f, f, None)
    else if p < 0.5 then
      var b := (p - 0.3) / (0.5 - 0.3);
      assert 0.0 <= b * math.pi <= math.pi;
      assert math.SinBoundedAt(b * math.pi);
      AnimProps(1.0 + math.sin(b * math.pi) * PulseBounceAmount, 1.0, None)
    else if p > 0.85 then
      var f := (p - 0.85) / (1.0 - 0.85);
      AnimProps(1.0 - f * 0.7, 1.0 - f, None)
    else
      AnimProps(1.0, 1.0, None)
  }

  /** `animateInstant`. */
  function AnimateInstant(): (r: AnimProps)
    ensures r.scale == 1.0 && r.opacity == 1.0 && r.rotation.None?
  {
    AnimProps(1.0, 1.0, None)
  }

  /** `getAnimationProperties`: dispatch on the instance's stored mode. */
  function AnimationProperties(inst: RenderInstance, mode: Mode, math: MathLib): (r: AnimProps)
    requires math.Lawful()
    ensures mode !in {Layered, Rotate, Pulse, Instant} ==> r == AnimProps(1.0, 1.0, Some(0.0))
    ensures mode == Layered ==> r == AnimateLayered(inst)
    ensures mode == Rotate ==> r == AnimateRotate(Progress(inst.age, inst.lifespan), math.pi)
    ensures mode == Pulse ==> r == AnimatePulse(Progress(inst.age, inst.lifespan), math)
    ensures mode == Instant ==> r == AnimateInstant()
  {
    var p := Progress(inst.age, inst.lifespan);
    match mode
    case Layered => AnimateLayered(inst)
    case Rotate => AnimateRotate(p, math.pi)
    case Pulse => AnimatePulse(p, math)
    case Instant => AnimateInstant()
    case _ => AnimProps(1.0, 1.0, Some(0.0))
  }

  /** For an instance that has not aged backwards, every curve keeps opacity in [0, 1] and scale in [0, 1.5]. */
  lemma AnimationBounded(inst: RenderInstance, mode: Mode, math: MathLib)
    requires math.Lawful() && inst.age >= 0
    ensures var r := AnimationProperties(inst, mode, math);
      0.0 <= r.opacity <= 1.0 && 0.0 <= r.scale <= 1.5
  {
    var p := Progress(inst.age, inst.lifespan);
    assert 0.0 <= p <= 1.0;
  }
}
