// The CITY stage of the "breath hidden city" page: conveyor lines that never end, each
// fed with vehicle words on its own cooldown, leaving a fading "smoke" trail where a
// vehicle leaves the grid. Timers become the `ticking` flag, the page gate (hidden mode
// on, stage CITY, not suspended for a resize) becomes the `active` argument, and every
// `Math.random()` draw is a parameter in [0, 1).
module CityLines {
  import opened Wrappers
  import opened CityTokens

  /** `CITY_MIN_LINES` .. `CITY_SMOKE_STEPS`. */
  const MinLines: nat := 12
  const MaxLines: nat := 28
  const MinCooldown: nat := 12
  const MaxCooldown: nat := 28
  const MinGap: nat := 2
  const MaxInject: nat := 3
  const SmokeSteps: int := 3

  /** The draws that pick one new line: row or column, its index, its direction, its cooldown and its first countdown. */
  datatype LineDraws = LineDraws(row: real, index: real, dir: real, cooldown: real, next: real)

  predicate UnitLineDraws(d: LineDraws) {
    0.0 <= d.row < 1.0 && 0.0 <= d.index < 1.0 && 0.0 <= d.dir < 1.0 && 0.0 <= d.cooldown < 1.0 && 0.0 <= d.next < 1.0
  }

  /** The two draws of `buildCityWord`. */
  datatype WordDraws = WordDraws(base: real, count: real)

  predicate UnitWordDraws(w: WordDraws) {
    0.0 <= w.base < 1.0 && 0.0 <= w.count < 1.0
  }

  /** The cooldown `createCityLine` draws: an integer in [12, 28]. */
  function CooldownOf(u: real): (c: nat)
    requires 0.0 <= u < 1.0
    ensures MinCooldown <= c <= MaxCooldown
  {
    Pick(u, MaxCooldown - MinCooldown + 1) + MinCooldown
  }

  /** `CITY_MIN_GAP` spacer cells. */
  const Gap: seq<Token> := [Blank, Blank]

  /** The queue after a word is pushed: a gap, the word's characters in reading order, another gap. */
  function Enqueued(q: seq<Token>, w: Word): (r: seq<Token>)
    ensures |r| == |q| + 2 * MinGap + |w.chars|
    ensures r[..|q|] == q
    ensures r[|q|] == Blank && r[|q| + 1] == Blank && r[|r| - 2] == Blank && r[|r| - 1] == Blank
    ensures forall k :: 0 <= k < |w.chars| ==> r[|q| + MinGap + k] == Moving(w.chars[k], VehicleKind, Some(w.base))
  {
    q + Gap + VehicleTokens(w) + Gap
  }

  /** A run of `push` calls: `ts` appended to `q`, one token at a time. */
  method PushAll(q: seq<Token>, ts: seq<Token>) returns (r: seq<Token>)
    ensures r == q + ts
  {
    r := q;
    var k := 0;
    while k < |ts|
      invariant 0 <= k <= |ts| && r == q + ts[..k]
    {
      r := r + [ts[k]];
      k := k + 1;
    }
    assert ts[..k] == ts;
  }

  /** A queue with its spawn countdown. */
  datatype Feed = Feed(queue: seq<Token>, next: int)

  /** `maybeEnqueueForLine`: the countdown drops by one; when it reaches zero it restarts at `cooldown`, and a word is pushed unless more than `CITY_MAX_INJECT` tokens already wait. */
  function EnqueueStep(f: Feed, cooldown: nat, w: WordDraws): (r: Feed)
    requires UnitWordDraws(w)
    ensures f.next - 1 > 0 ==> r == Feed(f.queue, f.next - 1)
    ensures f.next - 1 <= 0 ==> r.next == cooldown
    ensures f.next - 1 <= 0 && |f.queue| > MaxInject ==> r.queue == f.queue
    ensures f.next - 1 <= 0 && |f.queue| <= MaxInject ==> r.queue == Enqueued(f.queue, BuildVehicleWord(w.base, w.count))
  {
    if f.next - 1 > 0 then Feed(f.queue, f.next - 1)
    else if |f.queue| > MaxInject then Feed(f.queue, cooldown)
    else Feed(Enqueued(f.queue, BuildVehicleWord(w.base, w.count)), cooldown)
  }

  /** Successive calls of `maybeEnqueueForLine` from `f`, the i-th with the word draws `ws[i]`. */
  function EnqueueRun(f: Feed, cooldown: nat, ws: seq<WordDraws>): Feed
    requires forall i :: 0 <= i < |ws| ==> UnitWordDraws(ws[i])
    decreases |ws|
  {
    if ws == [] then f else EnqueueStep(EnqueueRun(f, cooldown, ws[..|ws| - 1]), cooldown, ws[|ws| - 1])
  }

  /** From a countdown just restarted at `cooldown`, fewer than `cooldown` calls push nothing and count down by one each. */
  lemma {:induction false} EnqueueQuiet(q: seq<Token>, cooldown: nat, ws: seq<WordDraws>)
    requires |ws| < cooldown && forall i :: 0 <= i < |ws| ==> UnitWordDraws(ws[i])
    ensures EnqueueRun(Feed(q, cooldown), cooldown, ws) == Feed(q, cooldown - |ws|)
  {
    if ws != [] {
      EnqueueQuiet(q, cooldown, ws[..|ws| - 1]);
    }
  }

  /**
   * The enqueue cadence: after the countdown restarts at `cooldown`, each of the next `cooldown - 1`
   * calls leaves the queue alone, and the `cooldown`-th fires: it restarts the countdown at `cooldown`
   * and pushes a word unless more than `CITY_MAX_INJECT` tokens wait. So a line tries to enqueue on
   * exactly every `cooldown`-th tick.
   */
  lemma {:induction false} EnqueuePeriod(q: seq<Token>, cooldown: nat, ws: seq<WordDraws>)
    requires 1 <= cooldown == |ws| && forall i :: 0 <= i < |ws| ==> UnitWordDraws(ws[i])
    ensures forall k :: 0 <= k < cooldown ==> EnqueueRun(Feed(q, cooldown), cooldown, ws[..k]) == Feed(q, cooldown - k)
    ensures EnqueueRun(Feed(q, cooldown), cooldown, ws).next == cooldown
    ensures |q| > MaxInject ==> EnqueueRun(Feed(q, cooldown), cooldown, ws).queue == q
    ensures |q| <= MaxInject ==>
      EnqueueRun(Feed(q, cooldown), cooldown, ws).queue == Enqueued(q, BuildVehicleWord(ws[cooldown - 1].base, ws[cooldown - 1].count))
  {
    forall k | 0 <= k < cooldown
      ensures EnqueueRun(Feed(q, cooldown), cooldown, ws[..k]) == Feed(q, cooldown - k)
    {
      EnqueueQuiet(q, cooldown, ws[..k]);
    }
    assert ws[..cooldown - 1] == ws[..|ws| - 1];
  }

  /** Smoke ages after the decay pass: every positive age drops by one. */
  function Decayed(ages: seq<int>): (r: seq<int>)
    ensures |r| == |ages|
    ensures forall i :: 0 <= i < |ages| ==> r[i] == (if ages[i] > 0 then ages[i] - 1 else ages[i])
  {
    seq(|ages|, i requires 0 <= i < |ages| => if ages[i] > 0 then ages[i] - 1 else ages[i])
  }

  /** The exit cell of a line: the last cell for a forward line, the first for a backward one. */
  function ExitIndex(len: nat, entryAtStart: bool): (i: nat)
    requires len >= 1
    ensures i < len
    ensures entryAtStart ==> i == len - 1
    ensures !entryAtStart ==> i == 0
  {
    if entryAtStart then len - 1 else 0
  }

  /** The smoke update of `advanceCityBuffer` as written: mark the exit cell with `CITY_SMOKE_STEPS` when a vehicle left, then decay every age. */
  function SmokeAsWritten(ages: seq<int>, exit: nat, exiting: Token): (r: seq<int>)
    requires exit < |ages|
    ensures |r| == |ages|
  {
    Decayed(if exiting != Blank then ages[exit := SmokeSteps] else ages)
  }

  /** The mark is decayed in the same call, before the line is drawn: no age above 2 ever reaches the renderer, so its `smoke-3` class is never applied. */
  lemma SmokeThreeNeverDrawn(ages: seq<int>, exit: nat, exiting: Token)
    requires exit < |ages| && forall i :: 0 <= i < |ages| ==> 0 <= ages[i] <= SmokeSteps
    ensures forall i :: 0 <= i < |ages| ==> 0 <= SmokeAsWritten(ages, exit, exiting)[i] < SmokeSteps
    ensures exiting != Blank ==> SmokeAsWritten(ages, exit, exiting)[exit] == SmokeSteps - 1
  {
  }

  /** The smoke update with decay first: the cell a vehicle just left shows all `CITY_SMOKE_STEPS` stages. */
  function Smoke(ages: seq<int>, exit: nat, exiting: Token): (r: seq<int>)
    requires exit < |ages|
    ensures |r| == |ages|
  {
    if exiting != Blank then Decayed(ages)[exit := SmokeSteps] else Decayed(ages)
  }

  /** With decay first, a vehicle leaving marks its exit cell at 3, every other age decays, and ages stay in [0, 3]. */
  lemma SmokeMarksExit(ages: seq<int>, exit: nat, exiting: Token)
    requires exit < |ages| && forall i :: 0 <= i < |ages| ==> 0 <= ages[i] <= SmokeSteps
    ensures exiting != Blank ==> Smoke(ages, exit, exiting)[exit] == SmokeSteps
    ensures forall i :: 0 <= i < |ages| && (i != exit || exiting == Blank) ==>
      Smoke(ages, exit, exiting)[i] == (if ages[i] > 0 then ages[i] - 1 else 0)
    ensures forall i :: 0 <= i < |ages| ==> 0 <= Smoke(ages, exit, exiting)[i] <= SmokeSteps
  {
  }

  /** Ages after `k` steps of a line whose exit sees no vehicle. */
  function Fade(ages: seq<int>, exit: nat, k: nat): (r: seq<int>)
    requires exit < |ages|
    ensures |r| == |ages|
  {
    if k == 0 then ages else Smoke(Fade(ages, exit, k - 1), exit, Blank)
  }

  /** A fresh mark is drawn as stages 3, 2, 1 on the steps that follow, and is gone after `CITY_SMOKE_STEPS` quiet steps. */
  lemma {:induction false} SmokeTrail(ages: seq<int>, exit: nat, k: nat)
    requires exit < |ages| && ages[exit] == SmokeSteps
    ensures k <= 3 ==> Fade(ages, exit, k)[exit] == SmokeSteps - k
    ensures k >= 3 ==> Fade(ages, exit, k)[exit] == 0
  {
    if k > 0 {
      SmokeTrail(ages, exit, k - 1);
    }
  }

  /** A city line's cells, smoke ages, queue, countdown and liveness, as values. */
  datatype CityState = CityState(buffer: seq<Token>, ages: seq<int>, queue: seq<Token>, next: int, alive: bool)

  /** The per-line invariant: matching lengths, ages within the smoke stages, at most 12 queued tokens, and a countdown within the cooldown. */
  predicate StateOk(s: CityState, cooldown: nat) {
    && |s.buffer| >= 1 && |s.ages| == |s.buffer|
    && (forall i :: 0 <= i < |s.ages| ==> 0 <= s.ages[i] <= SmokeSteps)
    && |s.queue| <= 12
    && 0 <= s.next <= cooldown
  }

  /** `advanceCityBuffer` on values: the conveyor step fed by the queue head, and the written smoke update (mark, then decay). */
  function AdvanceStep(s: CityState, entryAtStart: bool): (t: CityState)
    requires |s.buffer| >= 1 && |s.ages| == |s.buffer|
    ensures |t.buffer| == |s.buffer| && |t.ages| == |s.ages|
  {
    var exit := ExitIndex(|s.buffer|, entryAtStart);
    CityState(Conveyed(s.buffer, Head(s.queue), entryAtStart), SmokeAsWritten(s.ages, exit, s.buffer[exit]),
      Rest(s.queue), s.next, s.alive)
  }

  /** One line of `tickCityLines`: a live line first maybe enqueues, then advances; a dead line is skipped. */
  function CityStep(s: CityState, entryAtStart: bool, cooldown: nat, w: WordDraws): (t: CityState)
    requires |s.buffer| >= 1 && |s.ages| == |s.buffer| && UnitWordDraws(w)
    ensures |t.buffer| == |s.buffer| && |t.ages| == |s.ages|
  {
    if !s.alive then s
    else
      var f := EnqueueStep(Feed(s.queue, s.next), cooldown, w);
      AdvanceStep(CityState(s.buffer, s.ages, f.queue, f.next, s.alive), entryAtStart)
  }

  /**
   * A step keeps the per-line invariant: a word is pushed only onto at most 3 tokens, so at most
   * 3 + 2 + 6 + 2 = 13 wait before the advance takes one. After a live step every smoke age is
   * below `CITY_SMOKE_STEPS`, and a vehicle that just left shows at stage 2.
   */
  lemma CityStepOk(s: CityState, entryAtStart: bool, cooldown: nat, w: WordDraws)
    requires StateOk(s, cooldown) && cooldown >= 1 && UnitWordDraws(w)
    ensures StateOk(CityStep(s, entryAtStart, cooldown, w), cooldown)
    ensures s.alive ==> forall i :: 0 <= i < |s.ages| ==> CityStep(s, entryAtStart, cooldown, w).ages[i] < SmokeSteps
    ensures s.alive && s.buffer[ExitIndex(|s.buffer|, entryAtStart)] != Blank ==>
      CityStep(s, entryAtStart, cooldown, w).ages[ExitIndex(|s.buffer|, entryAtStart)] == SmokeSteps - 1
  {
    if s.alive {
      var exit := ExitIndex(|s.buffer|, entryAtStart);
      var f := EnqueueStep(Feed(s.queue, s.next), cooldown, w);
      EnqueueBounded(Feed(s.queue, s.next), cooldown, w);
      SmokeThreeNeverDrawn(s.ages, exit, s.buffer[exit]);
      var t := CityStep(s, entryAtStart, cooldown, w);
      assert t.ages == SmokeAsWritten(s.ages, exit, s.buffer[exit]);
      assert t.queue == Rest(f.queue) && t.next == f.next;
    }
  }

  /** From at most 12 queued tokens and a countdown within the cooldown, an enqueue leaves at most 13 tokens and the countdown within the cooldown. */
  lemma EnqueueBounded(f: Feed, cooldown: nat, w: WordDraws)
    requires |f.queue| <= 12 && 0 <= f.next <= cooldown && UnitWordDraws(w)
    ensures var r := EnqueueStep(f, cooldown, w); |r.queue| <= 13 && 0 <= r.next <= cooldown
  {
    VehicleWordCells(w.base, w.count);
  }

  /** A city line: the cells of one row or column with their smoke ages, fed from one edge by `injectQueue`. */
  class CityLine {
    const lineType: LineType
    const index: int
    const entryAtStart: bool
    const buffer: array<Token>
    const smokeAges: array<int>
    const cooldown: nat
    var injectQueue: seq<Token>
    var nextSpawnTick: int
    var alive: bool

    ghost predicate Valid()
      reads this, buffer, smokeAges
    {
      MinCooldown <= cooldown <= MaxCooldown && StateOk(CityStateOf(this), cooldown)
    }

    /** `createCityLine`: all cells "숨", no smoke, an empty queue, a cooldown in [12, 28] and a first countdown below it. */
    constructor (lineType: LineType, index: int, dir: Dir, rows: nat, cols: nat, uCooldown: real, uNext: real)
      requires (if lineType == Row then cols else rows) >= 1
      requires 0.0 <= uCooldown < 1.0 && 0.0 <= uNext < 1.0
      ensures Valid() && fresh(buffer) && fresh(smokeAges)
      ensures this.lineType == lineType && this.index == index && entryAtStart == (dir == Forward)
      ensures buffer.Length == (if lineType == Row then cols else rows) && AllBlank(buffer[..])
      ensures smokeAges.Length == buffer.Length && forall i :: 0 <= i < smokeAges.Length ==> smokeAges[i] == 0
      ensures cooldown == CooldownOf(uCooldown) && nextSpawnTick == Pick(uNext, cooldown)
      ensures injectQueue == [] && alive
    {
      var len := if lineType == Row then cols else rows;
      this.lineType := lineType;
      this.index := index;
      entryAtStart := dir == Forward;
      buffer := new Token[len](_ => Blank);
      smokeAges := new int[len](_ => 0);
      injectQueue := [];
      var c := CooldownOf(uCooldown);
      cooldown := c;
      nextSpawnTick := Pick(uNext, c);
      alive := true;
    }

    /** `maybeEnqueueForLine`, with the pushes one token at a time. */
    method MaybeEnqueue(w: WordDraws)
      requires UnitWordDraws(w)
      modifies this`injectQueue, this`nextSpawnTick
      ensures Feed(injectQueue, nextSpawnTick) == EnqueueStep(Feed(old(injectQueue), old(nextSpawnTick)), cooldown, w)
    {
      nextSpawnTick := nextSpawnTick - 1;
      if nextSpawnTick > 0 {
        return;
      }
      nextSpawnTick := cooldown;
      if |injectQueue| > MaxInject {
        return;
      }
      var word := BuildVehicleWord(w.base, w.count);
      injectQueue := PushAll(injectQueue, Gap);
      injectQueue := PushAll(injectQueue, VehicleTokens(word));
      injectQueue := PushAll(injectQueue, Gap);
    }

    /** The decay pass over the smoke ages. */
    method Decay()
      modifies smokeAges
      ensures smokeAges[..] == Decayed(old(smokeAges[..]))
    {
      var i := 0;
      while i < smokeAges.Length
        invariant 0 <= i <= smokeAges.Length
        invariant forall k :: 0 <= k < i ==> smokeAges[k] == (if old(smokeAges[k]) > 0 then old(smokeAges[k]) - 1 else old(smokeAges[k]))
        invariant forall k :: i <= k < smokeAges.Length ==> smokeAges[k] == old(smokeAges[k])
      {
        if smokeAges[i] > 0 {
          smokeAges[i] := smokeAges[i] - 1;
        }
        i := i + 1;
      }
    }

    /** `advanceCityBuffer`: shift the cells one step, feed the queue head at the entry edge, mark smoke where a vehicle exited, then decay every age. */
    method Advance()
      requires buffer.Length >= 1 && smokeAges.Length == buffer.Length
      modifies this`injectQueue, buffer, smokeAges
      ensures CityStateOf(this) == AdvanceStep(old(CityStateOf(this)), entryAtStart)
    {
      var exit := ExitIndex(buffer.Length, entryAtStart);
      var exiting := buffer[exit];
      var entry := Head(injectQueue);
      injectQueue := Rest(injectQueue);
      ShiftIn(buffer, entry, entryAtStart);
      if exiting != Blank {
        smokeAges[exit] := SmokeSteps;
      }
      Decay();
    }

    /** One line of the `tickCityLines` loop: a live line enqueues, then advances. */
    method Step(w: WordDraws)
      requires UnitWordDraws(w) && buffer.Length >= 1 && smokeAges.Length == buffer.Length
      modifies this, buffer, smokeAges
      ensures CityStateOf(this) == CityStep(old(CityStateOf(this)), entryAtStart, cooldown, w)
    {
      if alive {
        MaybeEnqueue(w);
        Advance();
      }
    }
  }

  ghost function CityStateOf(l: CityLine): CityState
    reads l, l.buffer, l.smokeAges
  {
    CityState(l.buffer[..], l.smokeAges[..], l.injectQueue, l.nextSpawnTick, l.alive)
  }

  ghost function CityStates(ls: seq<CityLine>): (ss: seq<CityState>)
    reads (set l | l in ls), (set l | l in ls :: l.buffer), (set l | l in ls :: l.smokeAges)
    ensures |ss| == |ls| && forall k :: 0 <= k < |ls| ==> ss[k] == CityStateOf(ls[k])
  {
    seq(|ls|, k reads (set l | l in ls), (set l | l in ls :: l.buffer), (set l | l in ls :: l.smokeAges)
      requires 0 <= k < |ls| => CityStateOf(ls[k]))
  }

  /** No two lines share an object or an array. */
  ghost predicate Disjoint(ls: seq<CityLine>) {
    forall i, j :: 0 <= i < j < |ls| ==> ls[i] != ls[j] && ls[i].buffer != ls[j].buffer && ls[i].smokeAges != ls[j].smokeAges
  }

  /** The loop of `tickCityLines` over the lines, each with the draws its enqueue may use. */
  method StepLines(ls: seq<CityLine>, draws: seq<WordDraws>)
    requires |draws| == |ls| && Disjoint(ls)
    requires forall k :: 0 <= k < |ls| ==> UnitWordDraws(draws[k]) && ls[k].buffer.Length >= 1 && ls[k].smokeAges.Length == ls[k].buffer.Length
    modifies (set l | l in ls), (set l | l in ls :: l.buffer), (set l | l in ls :: l.smokeAges)
    ensures forall k :: 0 <= k < |ls| ==>
      CityStateOf(ls[k]) == CityStep(old(CityStateOf(ls[k])), ls[k].entryAtStart, ls[k].cooldown, draws[k])
  {
    ghost var states0 := CityStates(ls);
    var i := 0;
    while i < |ls|
      invariant 0 <= i <= |ls| && |states0| == |ls|
      invariant forall k :: 0 <= k < |ls| ==> |states0[k].buffer| >= 1 && |states0[k].ages| == |states0[k].buffer|
      invariant forall k :: 0 <= k < i ==> CityStateOf(ls[k]) == CityStep(states0[k], ls[k].entryAtStart, ls[k].cooldown, draws[k])
      invariant forall k :: i <= k < |ls| ==> CityStateOf(ls[k]) == states0[k]
    {
      StepAt(ls, draws, states0, i);
      i := i + 1;
    }
  }

  /** Step line `i`; no other line of `ls` changes. */
  method StepAt(ls: seq<CityLine>, draws: seq<WordDraws>, ghost states0: seq<CityState>, i: nat)
    requires i < |ls| == |draws| == |states0| && Disjoint(ls) && forall k :: 0 <= k < |ls| ==> UnitWordDraws(draws[k])
    requires forall k :: 0 <= k < |ls| ==> |states0[k].buffer| >= 1 && |states0[k].ages| == |states0[k].buffer|
    requires forall k :: 0 <= k < i ==> CityStateOf(ls[k]) == CityStep(states0[k], ls[k].entryAtStart, ls[k].cooldown, draws[k])
    requires forall k :: i <= k < |ls| ==> CityStateOf(ls[k]) == states0[k]
    modifies ls[i], ls[i].buffer, ls[i].smokeAges
    ensures forall k :: 0 <= k <= i ==> CityStateOf(ls[k]) == CityStep(states0[k], ls[k].entryAtStart, ls[k].cooldown, draws[k])
    ensures forall k :: i < k < |ls| ==> CityStateOf(ls[k]) == states0[k]
  {
    var line := ls[i];
    assert CityStateOf(line) == states0[i];
    line.Step(draws[i]);
    forall k | 0 <= k < |ls| && k != i
      ensures CityStateOf(ls[k]) == old(CityStateOf(ls[k]))
    {
      assert ls[k] != line && ls[k].buffer != line.buffer && ls[k].smokeAges != line.smokeAges;
    }
  }

  /** The CITY system: the lines and whether its timers run. */
  class CitySystem {
    var lines: seq<CityLine>
    var ticking: bool

    /** At most `CITY_MAX_LINES` lines, each valid, none sharing state with another. */
    ghost predicate Valid()
      reads this, (set l | l in lines), (set l | l in lines :: l.buffer), (set l | l in lines :: l.smokeAges)
    {
      && |lines| <= MaxLines
      && Disjoint(lines)
      && forall k :: 0 <= k < |lines| ==> lines[k].Valid()
    }

    constructor ()
      ensures Valid() && lines == [] && !ticking
    {
      lines := [];
      ticking := false;
    }

    /** Append `count` fresh lines built from the first `count` draws, as the seeding and refill loops do. */
    method AddLines(count: nat, rows: nat, cols: nat, draws: seq<LineDraws>)
      requires Valid() && rows >= 1 && cols >= 1 && count <= |draws| && |lines| + count <= MaxLines
      requires forall k :: 0 <= k < |draws| ==> UnitLineDraws(draws[k])
      modifies this`lines
      ensures Valid()
      ensures |lines| == |old(lines)| + count && lines[..|old(lines)|] == old(lines)
      ensures forall k :: |old(lines)| <= k < |lines| ==> fresh(lines[k]) && NewLine(lines[k], rows, cols, draws[k - |old(lines)|])
    {
      ghost var lines0 := lines;
      var n := 0;
      while n < count
        invariant 0 <= n <= count && |lines| == |lines0| + n && lines[..|lines0|] == lines0
        invariant Valid()
        invariant forall k :: |lines0| <= k < |lines| ==> fresh(lines[k]) && NewLine(lines[k], rows, cols, draws[k - |lines0|])
      {
        AppendLine(rows, cols, draws[n]);
        n := n + 1;
      }
    }

    /** One iteration of the seeding and refill loops: `createCityLine`, then `cityLines.push`. */
    method AppendLine(rows: nat, cols: nat, d: LineDraws)
      requires Valid() && rows >= 1 && cols >= 1 && |lines| < MaxLines && UnitLineDraws(d)
      modifies this`lines
      ensures Valid()
      ensures |lines| == |old(lines)| + 1 && lines[..|old(lines)|] == old(lines)
      ensures fresh(lines[|old(lines)|]) && NewLine(lines[|old(lines)|], rows, cols, d)
    {
      var line := CreateLine(rows, cols, d);
      lines := lines + [line];
    }

    /** `tickCityLines`: every live line steps; then, with fewer than `CITY_MIN_LINES` lines on a grid of at least 3x3, up to four new lines are added. */
    method Tick(active: bool, rows: nat, cols: nat, words: seq<WordDraws>, refill: seq<LineDraws>)
      requires Valid() && |words| == |lines| && |refill| == 4
      requires forall k :: 0 <= k < |words| ==> UnitWordDraws(words[k])
      requires forall k :: 0 <= k < 4 ==> UnitLineDraws(refill[k])
      modifies this`lines, (set l | l in lines), (set l | l in lines :: l.buffer), (set l | l in lines :: l.smokeAges)
      ensures Valid()
      ensures !active ==> lines == old(lines)
      ensures !active ==> forall k :: 0 <= k < |lines| ==> CityStateOf(lines[k]) == old(CityStateOf(lines[k]))
      ensures active ==> forall k :: 0 <= k < |old(lines)| ==>
        CityStateOf(old(lines)[k]) == CityStep(old(CityStateOf(lines[k])), old(lines)[k].entryAtStart, old(lines)[k].cooldown, words[k])
      ensures active ==> |lines| == |old(lines)| + RefillCount(|old(lines)|, rows, cols) && lines[..|old(lines)|] == old(lines)
      ensures active ==> forall k :: |old(lines)| <= k < |lines| ==>
        rows >= 1 && cols >= 1 && fresh(lines[k]) && NewLine(lines[k], rows, cols, refill[k - |old(lines)|])
    {
      if !active {
        return;
      }
      StepLines(lines, words);
      forall k | 0 <= k < |lines|
        ensures lines[k].Valid()
      {
        CityStepOk(old(CityStateOf(lines[k])), lines[k].entryAtStart, lines[k].cooldown, words[k]);
      }
      if |lines| < MinLines && rows >= 3 && cols >= 3 {
        AddLines(RefillCount(|lines|, rows, cols), rows, cols, refill);
      }
    }

    /** `spawnCityLineMaybe`: with the page active, fewer than `CITY_MAX_LINES` lines and a grid of at least 3x3, a draw below 0.45 adds one line, a row when its own draw is below 0.3. */
    method SpawnMaybe(active: bool, rows: nat, cols: nat, u: real, d: LineDraws)
      requires Valid() && 0.0 <= u < 1.0 && UnitLineDraws(d)
      modifies this`lines
      ensures Valid()
      ensures (active && |old(lines)| < MaxLines && rows >= 3 && cols >= 3 && u < 0.45) ==>
        |lines| == |old(lines)| + 1 && lines[..|old(lines)|] == old(lines) && fresh(lines[|old(lines)|])
        && SpawnedLine(lines[|old(lines)|], rows, cols, d)
      ensures !(active && |old(lines)| < MaxLines && rows >= 3 && cols >= 3 && u < 0.45) ==> lines == old(lines)
    {
      if !active || |lines| >= MaxLines || rows < 3 || cols < 3 {
        return;
      }
      if u < 0.45 {
        var useRow := d.row < 0.3;
        var idx := if useRow then Pick(d.index, rows) else Pick(d.index, cols);
        var dir := if d.dir < 0.5 then Forward else Backward;
        var line := new CityLine(if useRow then Row else Col, idx, dir, rows, cols, d.cooldown, d.next);
        assert line.buffer[..] == seq(line.buffer.Length, _ => Blank);
        assert line.smokeAges[..] == seq(line.buffer.Length, _ => 0);
        lines := lines + [line];
      }
    }

    /** `startCitySystem`: unless suspended, an empty system on a grid of at least 3x3 is seeded with `min(CITY_MIN_LINES, rows + cols)` lines, and the timers (re)start. */
    method Start(suspended: bool, rows: nat, cols: nat, seeds: seq<LineDraws>)
      requires Valid() && |seeds| == MinLines && forall k :: 0 <= k < |seeds| ==> UnitLineDraws(seeds[k])
      modifies this`lines, this`ticking
      ensures Valid()
      ensures suspended ==> lines == old(lines) && ticking == old(ticking)
      ensures !suspended ==> ticking
      ensures !suspended && old(lines) == [] && rows >= 3 && cols >= 3 ==> |lines| == Min(MinLines, rows + cols)
      ensures !suspended && old(lines) == [] && rows >= 3 && cols >= 3 ==>
        forall k :: 0 <= k < |lines| ==> fresh(lines[k]) && NewLine(lines[k], rows, cols, seeds[k])
      ensures !suspended && !(old(lines) == [] && rows >= 3 && cols >= 3) ==> lines == old(lines)
    {
      if suspended {
        return;
      }
      if |lines| == 0 && rows >= 3 && cols >= 3 {
        AddLines(Min(MinLines, rows + cols), rows, cols, seeds);
      }
      ticking := true;
    }

    /** `pauseCitySystem`: the timers stop and the lines stay. */
    method Pause()
      requires Valid()
      modifies this`ticking
      ensures Valid() && !ticking
    {
      ticking := false;
    }

    /** `stopCitySystem`: the timers stop and every line is dropped. */
    method Stop()
      requires Valid()
      modifies this`lines, this`ticking
      ensures Valid() && lines == [] && !ticking
    {
      ticking := false;
      lines := [];
    }
  }

  function Min(a: nat, b: nat): (m: nat)
    ensures m <= a && m <= b && (m == a || m == b)
  {
    if a <= b then a else b
  }

  /** How many lines a tick adds to `n` lines: `min(CITY_MIN_LINES - n, 4)` when below the minimum on a grid of at least 3x3, else none. */
  function RefillCount(n: nat, rows: nat, cols: nat): (c: nat)
    ensures c <= 4
    ensures c > 0 <==> n < MinLines && rows >= 3 && cols >= 3
    ensures c > 0 ==> n + c <= MinLines
  {
    if n < MinLines && rows >= 3 && cols >= 3 then Min(MinLines - n, 4) else 0
  }

  /** Three ticks bring any line count on a grid of at least 3x3 up to `CITY_MIN_LINES`, and no tick pushes it past the minimum. */
  lemma RefillReachesMinimum(n: nat, rows: nat, cols: nat)
    requires rows >= 3 && cols >= 3
    ensures var n1 := n + RefillCount(n, rows, cols);
            var n2 := n1 + RefillCount(n1, rows, cols);
            var n3 := n2 + RefillCount(n2, rows, cols);
            n3 >= MinLines && (n < MinLines ==> n3 == MinLines)
  {
  }

  /** The line `createCityLine` returns for a draw, with row or column already chosen. */
  ghost predicate NewLine(l: CityLine, rows: nat, cols: nat, d: LineDraws)
    requires UnitLineDraws(d) && rows >= 1 && cols >= 1
    reads l, l.buffer, l.smokeAges
  {
    var useRow := d.row < 0.5;
    && l.lineType == (if useRow then Row else Col)
    && l.index == (if useRow then Pick(d.index, rows) else Pick(d.index, cols))
    && l.entryAtStart == (d.dir < 0.5)
    && l.buffer.Length == (if useRow then cols else rows)
    && l.cooldown == CooldownOf(d.cooldown)
    && CityStateOf(l) == CityState(seq(l.buffer.Length, _ => Blank), seq(l.buffer.Length, _ => 0), [], Pick(d.next, l.cooldown), true)
  }

  /** The line of `spawnCityLineMaybe`, which picks a row only for a draw below 0.3. */
  ghost predicate SpawnedLine(l: CityLine, rows: nat, cols: nat, d: LineDraws)
    requires UnitLineDraws(d) && rows >= 1 && cols >= 1
    reads l, l.buffer, l.smokeAges
  {
    var useRow := d.row < 0.3;
    && l.lineType == (if useRow then Row else Col)
    && l.index == (if useRow then Pick(d.index, rows) else Pick(d.index, cols))
    && l.entryAtStart == (d.dir < 0.5)
    && l.buffer.Length == (if useRow then cols else rows)
    && l.cooldown == CooldownOf(d.cooldown)
    && CityStateOf(l) == CityState(seq(l.buffer.Length, _ => Blank), seq(l.buffer.Length, _ => 0), [], Pick(d.next, l.cooldown), true)
  }

  /** One line of the seeding and refill loops: a row for a draw below 0.5, an index in range, forward for a draw below 0.5. */
  method CreateLine(rows: nat, cols: nat, d: LineDraws) returns (line: CityLine)
    requires rows >= 1 && cols >= 1 && UnitLineDraws(d)
    ensures fresh(line) && fresh(line.buffer) && fresh(line.smokeAges) && line.Valid()
    ensures NewLine(line, rows, cols, d)
  {
    var useRow := d.row < 0.5;
    var idx := if useRow then Pick(d.index, rows) else Pick(d.index, cols);
    var dir := if d.dir < 0.5 then Forward else Backward;
    line := new CityLine(if useRow then Row else Col, idx, dir, rows, cols, d.cooldown, d.next);
    assert line.buffer[..] == seq(line.buffer.Length, _ => Blank);
    assert line.smokeAges[..] == seq(line.buffer.Length, _ => 0);
  }
}
