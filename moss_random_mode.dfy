// Resolution of the `random` animation mode: each of the five concrete modes gets a
// weight parsed from the element's `randomModeConfig`, and one draw of the seeded
// generator picks a mode in proportion to the positive weights.
module MossRandomMode {
  import opened Wrappers
  import opened JsStrings
  import opened MossTypes

  /** The candidate modes, in the order the cumulative scan visits them. */
  const RandomModes: seq<Mode> := [Layered, Rotate, Pulse, Flicker, Grow]

  /** The key of a mode in `randomModeConfig`. */
  function ModeKey(m: Mode): string {
    match m
    case Layered => "layered"
    case Rotate => "rotate"
    case Pulse => "pulse"
    case Flicker => "flicker"
    case Grow => "grow"
    case Random => "random"
    case Title => "title"
    case Instant => "instant"
  }

  /** `parseProb` on a string: trimmed; "N%" is N/100; else `Number`, else `parseFloat`. `None` is NaN. */
  function ParseProbText(raw: string): (r: Option<real>)
    ensures Trim(raw) == [] ==> r == Some(0.0)
    ensures Trim(raw) != [] && IsDigit(Trim(raw)[0]) ==> r.Some?
  {
    var s := Trim(raw);
    assert s == [] ==> NumberValue(s) == Some(0.0) by {
      if s == [] { assert Trim(s) == []; }
    }
    assert s != [] && IsDigit(s[0]) && s[|s| - 1] == '%' ==> PercentValue(s[..|s| - 1]).Some? by {
      if s != [] && IsDigit(s[0]) && s[|s| - 1] == '%' { DigitLedUntrimmed(s[..|s| - 1]); }
    }
    assert s != [] && IsDigit(s[0]) ==> ParseFloat(s).Some? by {
      if s != [] && IsDigit(s[0]) { DigitLedUntrimmed(s); }
    }
    if s != [] && s[|s| - 1] == '%' then PercentValue(s[..|s| - 1]) else BareValue(s)
  }

  /** Text starting with a digit has no leading whitespace to trim. */
  lemma DigitLedUntrimmed(t: string)
    requires t != [] && IsDigit(t[0])
    ensures TrimStart(t) == t
  {
    assert !IsJsWhitespace(t[0]);
  }

  /** `parseFloat` of the text before a trailing '%', divided by 100. */
  function PercentValue(body: string): Option<real> {
    match ParseFloat(body)
    case Some(n) => Some(n / 100.0)
    case None => None
  }

  /** A bare numeric string: `Number(s)`, falling back to `parseFloat(s)`. */
  function BareValue(s: string): Option<real> {
    match NumberValue(s)
    case Some(n) => Some(n)
    case None => ParseFloat(s)
  }

  /** `parseProb`: finite numbers as they are, strings parsed, everything else NaN. */
  function ParseProb(raw: RawProb): (r: Option<real>)
    ensures raw.Num? ==> r == Some(raw.x)
    ensures raw.Missing? || raw.NonFinite? || raw.Other? ==> r.None?
    ensures raw.Text? && Trim(raw.s) == [] ==> r == Some(0.0)
    ensures raw.Text? && Trim(raw.s) != [] && IsDigit(Trim(raw.s)[0]) ==> r.Some?
  {
    match raw
    case Num(x) => Some(x)
    case Text(s) => ParseProbText(s)
    case _ => None
  }

  /** Trimmed text ending in '%' reads as `parseFloat` of the text before it, divided by 100. */
  lemma PercentBranch(s: string)
    requires Trim(s) == s && s != [] && s[|s| - 1] == '%'
    ensures ParseProbText(s) == PercentValue(s[..|s| - 1])
  {
  }

  /** The normalised weight `fullConfig[m]` of one mode. */
  function Weight(config: map<string, RawProb>, m: Mode): (w: real)
    ensures w >= 0.0
  {
    var parsed := if ModeKey(m) in config then ParseProb(config[ModeKey(m)]) else None;
    var scaled := if parsed.Some? && parsed.value > 1.0 then Some(parsed.value / 100.0) else parsed;
    var v := if scaled.Some? then scaled.value else if |config| > 0 then 0.0 else DefaultRandomWeight(m);
    if v < 0.0 then 0.0 else v
  }

  /**
   * How a weight is read: an empty configuration gives the default table, a key the
   * caller did not supply (while supplying others) or one that does not parse gives 0,
   * a value above 1 is a percentage, and a negative value is clamped to 0.
   */
  lemma WeightCases(config: map<string, RawProb>, m: Mode)
    ensures |config| == 0 ==> Weight(config, m) == DefaultRandomWeight(m)
    ensures |config| > 0 && ModeKey(m) !in config ==> Weight(config, m) == 0.0
    ensures ModeKey(m) in config && ParseProb(config[ModeKey(m)]).Some? ==>
      var x := ParseProb(config[ModeKey(m)]).value;
      Weight(config, m) == if x > 1.0 then x / 100.0 else if x < 0.0 then 0.0 else x
    ensures ModeKey(m) in config && ParseProb(config[ModeKey(m)]).None? ==> Weight(config, m) == 0.0
  {
  }

  /** The modes of `ms` whose weight is positive, in order. */
  function Positives(ms: seq<Mode>, config: map<string, RawProb>): (r: seq<Mode>)
    ensures |r| <= |ms|
  {
    if ms == [] then []
    else (if Weight(config, ms[0]) > 0.0 then [ms[0]] else []) + Positives(ms[1..], config)
  }

  /** `modes.filter(m => fullConfig[m] > 0)` keeps exactly the modes of positive weight. */
  lemma {:induction false} PositivesMembers(ms: seq<Mode>, config: map<string, RawProb>)
    ensures forall m :: m in Positives(ms, config) <==> m in ms && Weight(config, m) > 0.0
    decreases |ms|
  {
    if ms != [] {
      PositivesMembers(ms[1..], config);
      assert ms == [ms[0]] + ms[1..];
    }
  }

  function WeightsOf(ms: seq<Mode>, config: map<string, RawProb>): (ws: seq<real>)
    ensures |ws| == |ms|
    ensures forall i :: 0 <= i < |ms| ==> ws[i] == Weight(config, ms[i])
  {
    seq(|ms|, i requires 0 <= i < |ms| => Weight(config, ms[i]))
  }

  predicate AllPositive(ws: seq<real>) {
    forall i :: 0 <= i < |ws| ==> ws[i] > 0.0
  }

  /** The sum of the first `k` weights. */
  function PrefixSum(ws: seq<real>, k: nat): real
    requires k <= |ws|
  {
    if k == 0 then 0.0 else PrefixSum(ws, k - 1) + ws[k - 1]
  }

  lemma {:induction false} PrefixSumMonotone(ws: seq<real>, j: nat, k: nat)
    requires AllPositive(ws) && j <= k <= |ws|
    ensures PrefixSum(ws, j) <= PrefixSum(ws, k)
    decreases k
  {
    if j < k {
      PrefixSumMonotone(ws, j, k - 1);
    }
  }

  /** The cumulative scan from position `i`: the first mode whose running total exceeds `r`, else the last. */
  function ScanPick(ws: seq<real>, r: real, i: nat): (k: nat)
    requires i < |ws|
    ensures i <= k < |ws|
    decreases |ws| - i
  {
    if r < PrefixSum(ws, i + 1) || i == |ws| - 1 then i else ScanPick(ws, r, i + 1)
  }

  /**
   * With positive weights and 0 <= r < total, the scan lands on the one mode whose
   * interval [PrefixSum(k), PrefixSum(k+1)) contains r: each mode is hit by a share of
   * [0, total) equal to its weight.
   */
  lemma {:induction false} ScanPickInterval(ws: seq<real>, r: real, i: nat)
    requires AllPositive(ws) && i < |ws|
    requires PrefixSum(ws, i) <= r < PrefixSum(ws, |ws|)
    ensures var k := ScanPick(ws, r, i);
      PrefixSum(ws, k) <= r < PrefixSum(ws, k + 1)
    decreases |ws| - i
  {
    if !(r < PrefixSum(ws, i + 1)) && i < |ws| - 1 {
      ScanPickInterval(ws, r, i + 1);
    }
  }

  /** The `for … of positiveModes` loop with its running `cumulative`. */
  method PickWeighted(ws: seq<real>, r: real) returns (k: nat)
    requires |ws| > 0 && AllPositive(ws)
    ensures k == ScanPick(ws, r, 0)
    ensures 0.0 <= r < PrefixSum(ws, |ws|) ==> PrefixSum(ws, k) <= r < PrefixSum(ws, k + 1)
  {
    var cumulative := 0.0;
    var i := 0;
    while i < |ws|
      invariant 0 <= i <= |ws|
      invariant cumulative == PrefixSum(ws, i)
      invariant forall j :: 1 <= j <= i ==> r >= PrefixSum(ws, j)
      invariant i < |ws| ==> ScanPick(ws, r, 0) == ScanPick(ws, r, i)
      invariant i == |ws| ==> ScanPick(ws, r, 0) == |ws| - 1
    {
      cumulative := cumulative + ws[i];
      if r < cumulative {
        k := i;
        if 0.0 <= r < PrefixSum(ws, |ws|) {
          ScanPickInterval(ws, r, 0);
        }
        return;
      }
      i := i + 1;
    }
    k := |ws| - 1;
    assert r >= PrefixSum(ws, k + 1);
  }

  /** `this.rng() * total`: the draw stretched over the total positive weight. */
  function ScaledDraw(ws: seq<real>, u: real): real {
    u * PrefixSum(ws, |ws|)
  }

  /** `selectRandomMode(config)` given the generator's draw `u`; the draw is only taken when some weight is positive. */
  function ResolveRandomMode(config: map<string, RawProb>, u: real): (m: Mode)
    ensures m in Positives(RandomModes, config) || (m == Pulse && Positives(RandomModes, config) == [])
  {
    var ps := Positives(RandomModes, config);
    if ps == [] then Pulse
    else
      var ws := WeightsOf(ps, config);
      ps[ScanPick(ws, ScaledDraw(ws, u), 0)]
  }

  /** The weights of the positive modes are all positive, so a weighted pick over them is defined. */
  lemma PositiveWeights(config: map<string, RawProb>)
    ensures AllPositive(WeightsOf(Positives(RandomModes, config), config))
  {
    var ps := Positives(RandomModes, config);
    var ws := WeightsOf(ps, config);
    PositivesMembers(RandomModes, config);
    forall i | 0 <= i < |ws| ensures ws[i] > 0.0 {
      assert ps[i] in ps;
    }
  }

  /** With some positive weight, the resolved mode is the one the cumulative scan picks. */
  lemma ResolveByScan(config: map<string, RawProb>, u: real, k: nat)
    requires Positives(RandomModes, config) != []
    requires var ws := WeightsOf(Positives(RandomModes, config), config);
      k == ScanPick(ws, ScaledDraw(ws, u), 0)
    ensures k < |Positives(RandomModes, config)|
    ensures ResolveRandomMode(config, u) == Positives(RandomModes, config)[k]
  {
  }

  /** The resolved mode is a concrete mode of positive weight, or pulse when no weight is positive. */
  lemma ResolvedModeHasWeight(config: map<string, RawProb>, u: real)
    ensures var m := ResolveRandomMode(config, u);
      (m in RandomModes && Weight(config, m) > 0.0) ||
      (m == Pulse && forall n :: n in RandomModes ==> Weight(config, n) == 0.0)
  {
    var ps := Positives(RandomModes, config);
    PositivesMembers(RandomModes, config);
    if ps == [] {
      forall n | n in RandomModes ensures Weight(config, n) == 0.0 {
        assert n !in ps;
      }
    } else {
      var ws := WeightsOf(ps, config);
      var k := ScanPick(ws, ScaledDraw(ws, u), 0);
      assert ps[k] in ps;
    }
  }

  /** Once any key is given, a single positive key fixes the mode whatever the draw. */
  lemma SingleKeyFixesMode(m: Mode, x: real, u: real)
    requires m in RandomModes && 0.0 < x
    ensures ResolveRandomMode(map[ModeKey(m) := Num(x)], u) == m
  {
    var config := map[ModeKey(m) := Num(x)];
    var ps := Positives(RandomModes, config);
    PositivesMembers(RandomModes, config);
    forall n | n in RandomModes && n != m ensures Weight(config, n) == 0.0 {
      assert ModeKey(n) != ModeKey(m);
      WeightCases(config, n);
    }
    WeightCases(config, m);
    assert m in ps;
    assert forall n :: n in ps ==> n == m;
  }
}
