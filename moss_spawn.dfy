// The arithmetic of `update` and `mainLoop` in the current TypoMoss renderer:
// the spawn-rate ramp, the spawn chance, the title schedule, the frame-time clamp
// and the scalar draws of `createInstance` / `createTitleInstance`.
module MossSpawn {
  import opened Wrappers
  import opened JsStrings
  import opened MossTypes

  // ---- spawn rate ---------------------------------------------------------------

  /** Seconds over which the spawn rate ramps up: one second short of the reset interval, else 12. */
  function RampTotal(resetIntervalSeconds: Option<real>): (t: real)
    ensures t >= 0.1
    ensures resetIntervalSeconds.Some? && resetIntervalSeconds.value > 1.0 ==>
      t == if resetIntervalSeconds.value - 1.0 > 0.1 then resetIntervalSeconds.value - 1.0 else 0.1
    ensures (resetIntervalSeconds.None? || resetIntervalSeconds.value <= 1.0) ==> t == 12.0
  {
    if resetIntervalSeconds.Some? && resetIntervalSeconds.value > 1.0 then
      var t := resetIntervalSeconds.value - 1.0;
      if t > 0.1 then t else 0.1
    else 12.0
  }

  /** `min(elapsed / rampTotal, 1)`. */
  function RampRatio(elapsed: real, rampTotal: real): (r: real)
    requires rampTotal > 0.0
    ensures r <= 1.0
    ensures 0.0 <= elapsed ==> 0.0 <= r
    ensures elapsed >= rampTotal ==> r == 1.0
    ensures elapsed == 0.0 ==> r == 0.0
  {
    assert elapsed >= rampTotal ==> elapsed / rampTotal >= 1.0 by {
      if elapsed >= rampTotal {
        assert elapsed / rampTotal * rampTotal == elapsed;
      }
    }
    if elapsed / rampTotal < 1.0 then elapsed / rampTotal else 1.0
  }

  /** `0.01 + 0.99 * min(elapsed / rampTotal, 1)^2`. */
  function RampMultiplier(elapsed: real, rampTotal: real): (m: real)
    requires rampTotal > 0.0
    ensures 0.0 <= elapsed ==> 0.01 <= m <= 1.0
    ensures elapsed >= rampTotal ==> m == 1.0
    ensures elapsed == 0.0 ==> m == 0.01
  {
    var r := RampRatio(elapsed, rampTotal);
    assert 0.0 <= elapsed ==> 0.0 <= r * r <= 1.0 by {
      if 0.0 <= elapsed {
        assert r * r <= r * 1.0;
      }
    }
    0.01 + r * r * 0.99
  }

  /** The ramp never slows down as time passes. */
  lemma RampMonotone(e1: real, e2: real, rampTotal: real)
    requires rampTotal > 0.0 && 0.0 <= e1 <= e2
    ensures RampMultiplier(e1, rampTotal) <= RampMultiplier(e2, rampTotal)
  {
    var r1 := RampRatio(e1, rampTotal);
    var r2 := RampRatio(e2, rampTotal);
    assert e1 / rampTotal <= e2 / rampTotal by {
      assert e1 / rampTotal * rampTotal <= e2 / rampTotal * rampTotal;
    }
    assert 0.0 <= r1 <= r2;
    assert r1 * r1 <= r1 * r2 <= r2 * r2;
  }

  /** The rate multiplier of `update`: the ramp, cut to 20% while titles are still pending during the first 2.5 s. */
  function SpawnMultiplier(elapsed: real, rampTotal: real, titlesPending: bool): (m: real)
    requires rampTotal > 0.0
    ensures titlesPending && elapsed < 2.5 ==> m == RampMultiplier(elapsed, rampTotal) * 0.2
    ensures !(titlesPending && elapsed < 2.5) ==> m == RampMultiplier(elapsed, rampTotal)
  {
    var ramp := RampMultiplier(elapsed, rampTotal);
    if titlesPending && elapsed < 2.5 then ramp * 0.2 else ramp
  }

  /** `elementConfig?.frequency || 0.1`. */
  function EffectiveFrequency(config: Option<ElementConfig>): (f: real)
    ensures config.None? ==> f == 0.1
    ensures config.Some? ==> f == OrNum(config.value.frequency, 0.1)
  {
    if config.Some? then OrNum(config.value.frequency, 0.1) else 0.1
  }

  /** The chance of spawning the drawn element: layered descriptors at 200% of their frequency, all others at 150%. */
  function SpawnChance(frequency: real, descriptorMode: Mode, spawnSpeed: Option<real>, multiplier: real): (c: real)
    ensures descriptorMode == Layered ==> c == frequency * 2.0 * (OptOr(spawnSpeed, 1.0) * multiplier)
    ensures descriptorMode != Layered ==> c == frequency * 1.5 * (OptOr(spawnSpeed, 1.0) * multiplier)
  {
    var base := if descriptorMode == Layered then frequency * 2.0 else frequency * 1.5;
    base * (OptOr(spawnSpeed, 1.0) * multiplier)
  }

  /** With a non-negative frequency and a positive speed (`spawnSpeed || 1`) the chance is at most twice frequency times speed. */
  lemma SpawnChanceBounded(frequency: real, mode: Mode, spawnSpeed: Option<real>, elapsed: real, rampTotal: real, pending: bool)
    requires 0.0 <= frequency && 0.0 < OptOr(spawnSpeed, 1.0) && 0.0 <= elapsed && 0.0 < rampTotal
    ensures var c := SpawnChance(frequency, mode, spawnSpeed, SpawnMultiplier(elapsed, rampTotal, pending));
      0.0 <= c <= frequency * 2.0 * OptOr(spawnSpeed, 1.0)
  {
    var v := OptOr(spawnSpeed, 1.0);
    var m := SpawnMultiplier(elapsed, rampTotal, pending);
    assert 0.0 <= m <= 1.0;
    ChanceArith(SpawnChance(frequency, mode, spawnSpeed, m), frequency, v, m, mode == Layered);
  }

  /** The arithmetic of the bound: a rate of 1.5 or 2 times the frequency, scaled by a fraction of the speed. */
  lemma ChanceArith(c: real, f: real, v: real, m: real, layered: bool)
    requires 0.0 <= f && 0.0 < v && 0.0 <= m <= 1.0
    requires c == (if layered then f * 2.0 else f * 1.5) * (v * m)
    ensures 0.0 <= c <= f * 2.0 * v
  {
    var k := v * m;
    assert 0.0 <= k <= v;
    assert f * 1.5 * k <= f * 2.0 * k;
    assert f * 2.0 * k <= f * 2.0 * v;
  }

  /** `Math.floor(rng() * n)`: the index of the drawn element. */
  function ElementIndex(u: real, n: nat): (i: int)
    ensures 0.0 <= u < 1.0 && n > 0 ==> 0 <= i < n
  {
    if 0.0 <= u < 1.0 && n > 0 then
      assert u * n as real < n as real;
      (u * n as real).Floor
    else (u * n as real).Floor
  }

  // ---- title schedule --------------------------------------------------------------

  /** `Math.max(0.01, spawnSpeed || 1)`: the speed whose square root paces the titles. */
  function TitleSpeed(spawnSpeed: Option<real>): (s: real)
    ensures s >= 0.01
  {
    var v := OptOr(spawnSpeed, 1.0);
    if 0.01 > v then 0.01 else v
  }

  /** `max(0, floor(4 / speedFactor))`. */
  function TitleStartFrame(speedFactor: real): (f: int)
    requires speedFactor > 0.0
    ensures f >= 0
  {
    var raw := (4.0 / speedFactor).Floor;
    if raw > 0 then raw else 0
  }

  /** `max(2, round(12 / speedFactor))`. */
  function TitleInterval(speedFactor: real): (n: int)
    requires speedFactor > 0.0
    ensures n >= 2
  {
    var raw := JsRound(12.0 / speedFactor);
    if raw > 2 then raw else 2
  }

  /** A title is introduced on frame `frame` of the schedule starting at `start` every `interval` frames. */
  function TitleDue(frame: int, start: int, interval: int): (b: bool)
    requires interval > 0
    ensures b ==> frame >= start && frame == start + (frame - start) / interval * interval
    ensures frame == start ==> b
  {
    frame >= start && (frame - start) % interval == 0
  }

  /** Two title introductions are at least `interval` (so at least two) frames apart. */
  lemma TitleDueSpacing(f1: int, f2: int, start: int, interval: int)
    requires interval > 0 && TitleDue(f1, start, interval) && TitleDue(f2, start, interval) && f1 < f2
    ensures f2 - f1 >= interval
  {
    var a := f1 - start;
    var b := f2 - start;
    assert a == interval * (a / interval);
    assert b == interval * (b / interval);
    var q := b / interval - a / interval;
    assert b - a == interval * q;
    assert q >= 1;
    assert interval * q >= interval * 1;
  }

  /** Horizontal slot of title `index` of `count`: the canvas split into `count + 1` equal gaps. */
  function TitleSlotX(width: real, count: nat, index: nat): (x: real)
    ensures width > 0.0 && index < count ==> 0.0 < x < width
  {
    var gap := width / (count + 1) as real;
    assert width > 0.0 && index < count ==> gap * (index + 1) as real < width by {
      if width > 0.0 && index < count {
        assert gap * (index + 1) as real <= gap * count as real;
        assert gap * (count + 1) as real == width;
      }
    }
    gap * (index + 1) as real
  }

  /** Title slots run left to right in title order. */
  lemma TitleSlotsOrdered(width: real, count: nat, i: nat, j: nat)
    requires width > 0.0 && i < j
    ensures TitleSlotX(width, count, i) < TitleSlotX(width, count, j)
  {
    var gap := width / (count + 1) as real;
    assert gap > 0.0;
    assert gap * (i + 1) as real < gap * (j + 1) as real;
  }

  // ---- frame time ----------------------------------------------------------------

  /** `Math.min(Math.max(raw, 1/240), 1/30)`: seconds per frame kept between 1/240 and 1/30. */
  function DeltaClamp(raw: real): (d: real)
    ensures 1.0 / 240.0 <= d <= 1.0 / 30.0
    ensures 1.0 / 240.0 <= raw <= 1.0 / 30.0 ==> d == raw
    ensures raw < 1.0 / 240.0 ==> d == 1.0 / 240.0
    ensures raw > 1.0 / 30.0 ==> d == 1.0 / 30.0
  {
    var lo := if raw > 1.0 / 240.0 then raw else 1.0 / 240.0;
    if lo < 1.0 / 30.0 then lo else 1.0 / 30.0
  }

  // ---- scalar draws ----------------------------------------------------------------

  /** `base + (rng() - 0.5) * 2 * (base * 0.3)`: a size within 30% of the base. */
  function SizeFromDraw(base: real, u: real): (s: real)
    ensures 0.0 < base && 0.0 <= u < 1.0 ==> base * 0.7 <= s < base * 1.3
  {
    assert (u - 0.5) * 2.0 * (base * 0.3) == base * (0.6 * u - 0.3);
    assert 0.0 < base && 0.0 <= u < 1.0 ==> base * (0.6 * u) < base * 0.6 by {
      if 0.0 < base && 0.0 <= u < 1.0 {
        assert 0.6 * u < 0.6;
      }
    }
    base + (u - 0.5) * 2.0 * (base * 0.3)
  }

  /** Vertical position of a title: the canvas middle plus or minus 20% of its height. */
  function TitleY(height: real, u: real): (y: real)
    ensures 0.0 < height && 0.0 <= u < 1.0 ==> height * 0.3 <= y < height * 0.7
  {
    height / 2.0 + (u - 0.5) * 2.0 * (height * 0.2)
  }

  /** `Math.floor(rng() * 5) + 3`: how many times a flicker or title instance blinks. */
  function FlickerCount(u: real): (n: int)
    ensures 0.0 <= u < 1.0 ==> 3 <= n <= 7
  {
    (u * 5.0).Floor + 3
  }

  /** Spin direction of a rotate instance: clockwise below one half. */
  function RotationDirection(u: real): (d: int)
    ensures d == 1 || d == -1
    ensures d == 1 <==> u < 0.5
  {
    if u < 0.5 then 1 else -1
  }
}
