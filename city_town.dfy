// The TOWN stage of the "breath hidden city" page: conveyor lines that cross the grid
// once and are removed when they have emptied. Timers become the `ticking` flag, the
// page gate (hidden mode on, stage TOWN, not suspended for a resize) becomes the
// `active` argument, and every `Math.random()` draw is a parameter in [0, 1).
module CityTown {
  import opened Wrappers
  import opened CityTokens

  /** The random draws one `spawnTownLineMaybe` call makes, in order. */
  datatype TownDraws = TownDraws(spawn: real, row: real, index: real, dir: real, kind: real, count: real, word1: real, word2: real)

  predicate UnitDraws(d: TownDraws) {
    0.0 <= d.spawn < 1.0 && 0.0 <= d.row < 1.0 && 0.0 <= d.index < 1.0 && 0.0 <= d.dir < 1.0 &&
    0.0 <= d.kind < 1.0 && 0.0 <= d.count < 1.0 && 0.0 <= d.word1 < 1.0 && 0.0 <= d.word2 < 1.0
  }

  /** The queue of a "breath" line: 3 to 7 breath objects. */
  function BreathQueue(u: real): (q: seq<Token>)
    requires 0.0 <= u < 1.0
    ensures 3 <= |q| <= 7 && forall i :: 0 <= i < |q| ==> q[i] == Moving(Breath, BreathKind, None)
  {
    seq(Pick(u, 5) + 3, _ => Moving(Breath, BreathKind, None))
  }

  /** The injection queue `createTownLine` builds for a content kind. */
  function TownQueue(breath: bool, count: real, word1: real, word2: real): (q: seq<Token>)
    requires 0.0 <= count < 1.0 && 0.0 <= word1 < 1.0 && 0.0 <= word2 < 1.0
    ensures 2 <= |q| <= 7 && Blank !in q
  {
    if breath then BreathQueue(count)
    else
      VehicleWordCells(word1, word2);
      VehicleTokens(BuildVehicleWord(word1, word2))
  }

  /** A town line: the cells of one row or column, fed from one edge by `injectQueue`. */
  class TownLine {
    const lineType: LineType
    const index: int
    const entryAtStart: bool
    const buffer: array<Token>
    var injectQueue: seq<Token>
    var tailTicks: int
    var alive: bool

    /** `createTownLine`: all cells "숨", entering at the start for a forward line, with the given queue. */
    constructor (lineType: LineType, index: int, dir: Dir, rows: nat, cols: nat, queue: seq<Token>)
      requires (if lineType == Row then cols else rows) >= 1
      ensures this.lineType == lineType && this.index == index && entryAtStart == (dir == Forward)
      ensures fresh(buffer) && buffer.Length == (if lineType == Row then cols else rows) && AllBlank(buffer[..])
      ensures injectQueue == queue && alive
      ensures tailTicks == buffer.Length + |queue| + 2
    {
      var len := if lineType == Row then cols else rows;
      this.lineType := lineType;
      this.index := index;
      entryAtStart := dir == Forward;
      buffer := new Token[len](_ => Blank);
      injectQueue := queue;
      tailTicks := len + |queue| + 2;
      alive := true;
    }

    /** `advanceTownBuffer`: one conveyor step fed by the queue head, which leaves the queue. */
    method Advance()
      requires buffer.Length >= 1
      modifies this`injectQueue, buffer
      ensures buffer[..] == Conveyed(old(buffer[..]), Head(old(injectQueue)), entryAtStart)
      ensures injectQueue == Rest(old(injectQueue))
    {
      var entry := Head(injectQueue);
      injectQueue := Rest(injectQueue);
      ShiftIn(buffer, entry, entryAtStart);
    }

    /** The scan of `tickTownLines`: true exactly when every cell holds the bare "숨". */
    method IsAllBlank() returns (allEmpty: bool)
      ensures allEmpty == AllBlank(buffer[..])
    {
      allEmpty := true;
      var k := 0;
      while k < buffer.Length
        invariant 0 <= k <= buffer.Length
        invariant allEmpty == AllBlank(buffer[..k])
        invariant !allEmpty ==> k == buffer.Length || !AllBlank(buffer[..])
      {
        if buffer[k] != Blank {
          allEmpty := false;
          break;
        }
        k := k + 1;
      }
    }

    /** One line of the `tickTownLines` loop: a live line advances, and dies once its queue is empty and every cell is "숨"; `removed` says it died now. */
    method Step() returns (removed: bool)
      requires buffer.Length >= 1
      modifies this, buffer
      ensures StateOf(this) == TownStep(old(StateOf(this)), entryAtStart)
      ensures removed <==> old(alive) && !alive
    {
      removed := false;
      if alive {
        Advance();
        if injectQueue == [] {
          var allEmpty := IsAllBlank();
          if allEmpty {
            alive := false;
            removed := true;
          }
        }
      }
    }
  }

  ghost function StateOf(l: TownLine): LineState
    reads l, l.buffer
  {
    LineState(l.buffer[..], l.injectQueue, l.alive)
  }

  ghost function States(ls: seq<TownLine>): (ss: seq<LineState>)
    reads (set l | l in ls), (set l | l in ls :: l.buffer)
    ensures |ss| == |ls| && forall k :: 0 <= k < |ls| ==> ss[k] == StateOf(ls[k])
  {
    seq(|ls|, k reads (set l | l in ls), (set l | l in ls :: l.buffer) requires 0 <= k < |ls| => StateOf(ls[k]))
  }

  /** A town line's cells, queue and liveness, as values. */
  datatype LineState = LineState(buffer: seq<Token>, queue: seq<Token>, alive: bool)

  /** What one tick does to a line, given its state before: a live line advances, and it dies when afterwards its queue is empty and all its cells are "숨". */
  function TownStep(s: LineState, entryAtStart: bool): (t: LineState)
    requires |s.buffer| >= 1
    ensures |t.buffer| == |s.buffer|
    ensures !s.alive ==> t == s
    ensures s.alive ==> t.queue == Rest(s.queue) && t.buffer == Conveyed(s.buffer, Head(s.queue), entryAtStart)
    ensures s.alive ==> (!t.alive <==> t.queue == [] && AllBlank(t.buffer))
  {
    if !s.alive then s
    else
      var buf := Conveyed(s.buffer, Head(s.queue), entryAtStart);
      var q := Rest(s.queue);
      LineState(buf, q, !(q == [] && AllBlank(buf)))
  }

  /** The line `createTownLine` builds from the draws: a row exactly when the row draw is below 0.5, at a drawn index, forward exactly when the direction draw is below 0.5, all cells "숨", live, fed by the queue of the drawn content kind (breath below 0.7), with its tail count. */
  ghost predicate SpawnedTownLine(l: TownLine, rows: nat, cols: nat, d: TownDraws)
    requires UnitDraws(d)
    reads l, l.buffer
  {
    && rows >= 1 && cols >= 1
    && l.lineType == (if d.row < 0.5 then Row else Col)
    && l.index == (if d.row < 0.5 then Pick(d.index, rows) else Pick(d.index, cols))
    && l.entryAtStart == (d.dir < 0.5)
    && l.buffer.Length == (if d.row < 0.5 then cols else rows)
    && AllBlank(l.buffer[..])
    && l.injectQueue == TownQueue(d.kind < 0.7, d.count, d.word1, d.word2)
    && l.tailTicks == l.buffer.Length + |l.injectQueue| + 2
    && l.alive
  }

  /** The TOWN system: the live lines and whether its timers run. */
  class TownSystem {
    var lines: seq<TownLine>
    var ticking: bool

    /** No two lines share a buffer, every buffer has a cell, and at most four lines exist. */
    ghost predicate Valid()
      reads this
    {
      && |lines| <= 4
      && (forall i :: 0 <= i < |lines| ==> lines[i].buffer.Length >= 1)
      && DistinctBuffers(lines)
    }

    ghost function Buffers(): set<array<Token>>
      reads this
    {
      set l | l in lines :: l.buffer
    }

    constructor ()
      ensures Valid() && lines == [] && !ticking
    {
      lines := [];
      ticking := false;
    }

    /** `startTownSystem`: nothing while the system is suspended or already ticking; otherwise the line list is emptied and the timers start. */
    method Start(suspended: bool)
      requires Valid()
      modifies this
      ensures Valid()
      ensures suspended || old(ticking) ==> lines == old(lines) && ticking == old(ticking)
      ensures !suspended && !old(ticking) ==> lines == [] && ticking
    {
      if suspended || ticking {
        return;
      }
      lines := [];
      ticking := true;
    }

    /** `stopTownSystem`: the timers stop and every line is dropped. */
    method Stop()
      requires Valid()
      modifies this
      ensures Valid() && lines == [] && !ticking
    {
      ticking := false;
      lines := [];
    }

    /** `pauseTownSystem`: the timers stop and the lines stay as they are. */
    method Pause()
      requires Valid()
      modifies this`ticking
      ensures Valid() && !ticking
    {
      ticking := false;
    }

    /** `spawnTownLineMaybe`: with the page active, a grid of at least 3x3 and fewer than 4 lines, a draw below 0.8 adds one line at the end. */
    method SpawnMaybe(active: bool, rows: nat, cols: nat, d: TownDraws)
      requires Valid() && UnitDraws(d)
      modifies this`lines
      ensures Valid()
      ensures |lines| <= 4
      ensures (active && rows >= 3 && cols >= 3 && |old(lines)| < 4 && d.spawn < 0.8) ==>
        |lines| == |old(lines)| + 1 && lines[..|old(lines)|] == old(lines) && fresh(lines[|old(lines)|]) &&
        SpawnedTownLine(lines[|old(lines)|], rows, cols, d)
      ensures !(active && rows >= 3 && cols >= 3 && |old(lines)| < 4 && d.spawn < 0.8) ==> lines == old(lines)
    {
      if !active || rows < 3 || cols < 3 || |lines| >= 4 {
        return;
      }
      if d.spawn < 0.8 {
        var useRow := d.row < 0.5;
        var idx := if useRow then Pick(d.index, rows) else Pick(d.index, cols);
        var dir := if d.dir < 0.5 then Forward else Backward;
        var queue := TownQueue(d.kind < 0.7, d.count, d.word1, d.word2);
        var line := new TownLine(if useRow then Row else Col, idx, dir, rows, cols, queue);
        lines := lines + [line];
      }
    }

    /** `tickTownLines`: from the last line to the first, step every line and splice out the ones that died. */
    method Tick(active: bool)
      requires Valid()
      modifies this`lines, (set l | l in lines), Buffers()
      ensures Valid()
      ensures !active ==> lines == old(lines) && forall l :: l in lines ==> StateOf(l) == old(StateOf(l))
      ensures active ==>
        forall k :: 0 <= k < |old(lines)| ==>
          StateOf(old(lines)[k]) == TownStep(old(States(lines))[k], old(lines)[k].entryAtStart)
      ensures active ==> lines == Survivors(old(lines), old(States(lines)))
    {
      if !active {
        return;
      }
      ghost var lines0 := lines;
      ghost var states0 := States(lines);
      lines := TickLines(lines);
      SurvivorsDistinct(lines0, states0);
      forall k | 0 <= k < |lines|
        ensures lines[k].buffer.Length >= 1
      {
        assert lines[k] in lines0;
      }
    }
  }

  /** The loop of `tickTownLines` over a list of distinct lines: from the last to the first, each line steps, and the ones that died are spliced out. */
  method TickLines(ls: seq<TownLine>) returns (cur: seq<TownLine>)
    requires DistinctBuffers(ls) && forall k :: 0 <= k < |ls| ==> ls[k].buffer.Length >= 1
    modifies (set l | l in ls), (set l | l in ls :: l.buffer)
    ensures forall k :: 0 <= k < |ls| ==> StateOf(ls[k]) == TownStep(old(StateOf(ls[k])), ls[k].entryAtStart)
    ensures cur == Survivors(ls, old(States(ls)))
  {
    ghost var states0 := States(ls);
    cur := ls;
    var i := |cur|;
    assert ls[i..] == [] && ls[..i] == ls;
    while i > 0
      invariant 0 <= i <= |ls| && |states0| == |ls|
      invariant forall k :: 0 <= k < |ls| ==> |states0[k].buffer| >= 1
      invariant cur == ls[..i] + Survivors(ls[i..], states0[i..])
      invariant TickedFrom(ls, states0, i)
      decreases i
    {
      i := i - 1;
      ghost var dies := states0[i].alive && !TownStep(states0[i], ls[i].entryAtStart).alive;
      SpliceStep(cur, ls, states0, i, dies);
      var removed := StepLine(ls, states0, cur[i], i);
      cur := if removed then cur[..i] + cur[i + 1..] else cur;
    }
    assert ls[0..] == ls && states0[0..] == states0;
  }

  /** The lines before `i` still hold their states before the tick, and the lines from `i` on hold the states one tick later. */
  ghost predicate TickedFrom(ls: seq<TownLine>, states0: seq<LineState>, i: nat)
    reads (set l | l in ls), (set l | l in ls :: l.buffer)
  {
    && |states0| == |ls|
    && (forall k :: 0 <= k < |ls| ==> |states0[k].buffer| >= 1)
    && (forall k :: 0 <= k < i && k < |ls| ==> StateOf(ls[k]) == states0[k])
    && (forall k :: i <= k < |ls| ==> StateOf(ls[k]) == TownStep(states0[k], ls[k].entryAtStart))
  }

  /** The body of the `tickTownLines` loop for line `i`, with the lines after `i` already stepped: line `i` steps, no other line changes, and `removed` says whether it died now. */
  method StepLine(ghost lines0: seq<TownLine>, ghost states0: seq<LineState>, line: TownLine, i: nat)
    returns (removed: bool)
    requires i < |lines0| && line == lines0[i] && DistinctBuffers(lines0)
    requires TickedFrom(lines0, states0, i + 1)
    modifies line, line.buffer
    ensures removed == (states0[i].alive && !TownStep(states0[i], line.entryAtStart).alive)
    ensures TickedFrom(lines0, states0, i)
  {
    assert StateOf(line) == states0[i];
    removed := line.Step();
    forall k | 0 <= k < |lines0| && k != i
      ensures StateOf(lines0[k]) == old(StateOf(lines0[k]))
    {
      assert lines0[k].buffer != line.buffer;
    }
  }

  /** No two lines share a buffer array (and so no line appears twice). */
  ghost predicate DistinctBuffers(ls: seq<TownLine>) {
    forall i, j :: 0 <= i < j < |ls| ==> ls[i].buffer != ls[j].buffer
  }

  /** The lines a tick keeps are lines it started from, and distinct when those are. */
  lemma {:induction false} SurvivorsDistinct(ls: seq<TownLine>, before: seq<LineState>)
    requires |before| == |ls| && forall k :: 0 <= k < |ls| ==> |before[k].buffer| >= 1
    requires DistinctBuffers(ls)
    ensures DistinctBuffers(Survivors(ls, before))
    ensures forall l :: l in Survivors(ls, before) ==> l in ls
  {
    if ls != [] {
      var rest := Survivors(ls[1..], before[1..]);
      SurvivorsDistinct(ls[1..], before[1..]);
      forall l | l in rest
        ensures l in ls && l.buffer != ls[0].buffer
      {
        var j :| 0 <= j < |ls[1..]| && ls[1..][j] == l;
        assert ls[j + 1] == l;
      }
      var r := Survivors(ls, before);
      if r != rest {
        assert r == [ls[0]] + rest;
        forall i, j | 0 <= i < j < |r|
          ensures r[i].buffer != r[j].buffer
        {
          assert r[j] == rest[j - 1] && r[j] in rest;
          if i > 0 {
            assert r[i] == rest[i - 1];
          }
        }
      }
    }
  }

  /** The list bookkeeping of one iteration of the tick loop: with the lines after `i` already processed, splicing out line `i` exactly when it dies leaves the survivors from `i` on. */
  lemma SpliceStep(lines: seq<TownLine>, lines0: seq<TownLine>, states0: seq<LineState>, i: nat, dies: bool)
    requires i < |lines0| == |states0| && forall k :: 0 <= k < |lines0| ==> |states0[k].buffer| >= 1
    requires lines == lines0[..i + 1] + Survivors(lines0[i + 1..], states0[i + 1..])
    requires dies == (states0[i].alive && !TownStep(states0[i], lines0[i].entryAtStart).alive)
    ensures i < |lines| && lines[i] == lines0[i]
    ensures (if dies then lines[..i] + lines[i + 1..] else lines) == lines0[..i] + Survivors(lines0[i..], states0[i..])
  {
    var rest := Survivors(lines0[i + 1..], states0[i + 1..]);
    assert lines0[i..][1..] == lines0[i + 1..];
    assert states0[i..][1..] == states0[i + 1..];
    assert Survivors(lines0[i..], states0[i..]) == (if dies then [] else [lines0[i]]) + rest;
    assert lines0[..i + 1] == lines0[..i] + [lines0[i]];
    assert lines[..i] == lines0[..i] && lines[i + 1..] == rest;
  }

  /** The lines a tick keeps, given each line's state before the tick. */
  function Survivors(ls: seq<TownLine>, before: seq<LineState>): (r: seq<TownLine>)
    requires |before| == |ls| && forall k :: 0 <= k < |ls| ==> |before[k].buffer| >= 1
    ensures |r| <= |ls|
  {
    if ls == [] then []
    else
      var t := TownStep(before[0], ls[0].entryAtStart);
      (if before[0].alive && !t.alive then [] else [ls[0]]) + Survivors(ls[1..], before[1..])
  }
}
