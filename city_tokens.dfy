// Tokens of the town and city conveyor lines and the one-step conveyor shift both use.
// A buffer cell holds either the plain string "숨" (`Blank`) or a moving token object;
// the vehicle words are built from uniform draws in [0, 1) that stand for `Math.random()`.
module CityTokens {
  import opened Wrappers

  /** The syllable "숨" (breath). */
  const Breath: string := "\U{C228}"

  datatype TokenKind = BreathKind | VehicleKind

  /** Whether a line runs along a row or a column, and the direction it moves in. */
  datatype LineType = Row | Col
  datatype Dir = Forward | Backward

  /** A buffer or queue entry: the bare string "숨", or a `{ch, kind, base}` object. An object is never the bare string, even when its `ch` is "숨". */
  datatype Token = Blank | Moving(ch: string, kind: TokenKind, base: Option<string>)

  /** `{ base, chars }` of `buildCityWord` / `buildTownVehicleToken`. */
  datatype Word = Word(base: string, chars: seq<string>)

  const Boong: string := "\U{BD80}\U{B989}"
  const Ttareureung: string := "\U{B530}\U{B974}\U{B989}"
  const Ppangppang: string := "\U{BE75}\U{BE75}"

  /** `VEHICLE_WORDS`. */
  const VehicleWords: seq<string> := [Boong, Ttareureung, Ppangppang]

  /** `n` copies of the one-syllable string `s`, as separate characters. */
  function Repeat(s: string, n: nat): (r: seq<string>)
    ensures |r| == n && forall i :: 0 <= i < n ==> r[i] == s
  {
    if n == 0 then [] else Repeat(s, n - 1) + [s]
  }

  /** `Math.floor(u * k)` for a draw `u` in [0, 1): an index below `k`. */
  function Pick(u: real, k: nat): (i: nat)
    requires 0.0 <= u < 1.0 && k > 0
    ensures i < k
  {
    var x := u * k as real;
    assert 0.0 <= x < k as real;
    x.Floor
  }

  /** A vehicle word: 부 + 르×n + 릉 or 따 + 르×n + 릉 with n in 1..4, or 빵×m with m in 2..5. */
  predicate IsVehicleWord(w: Word) {
    && w.base in VehicleWords
    && (w.base == Ppangppang ==> 2 <= |w.chars| <= 5 && w.chars == Repeat("\U{BE75}", |w.chars|))
    && (w.base != Ppangppang ==>
          && 3 <= |w.chars| <= 6
          && w.chars[0] == (if w.base == Boong then "\U{BD80}" else "\U{B530}")
          && w.chars[1..|w.chars| - 1] == Repeat("\U{B974}", |w.chars| - 2)
          && w.chars[|w.chars| - 1] == "\U{B989}")
  }

  /** `buildCityWord` (and the identical `buildTownVehicleToken`): `u1` picks the base, `u2` the repeat count. */
  function BuildVehicleWord(u1: real, u2: real): (w: Word)
    requires 0.0 <= u1 < 1.0 && 0.0 <= u2 < 1.0
    ensures IsVehicleWord(w)
    ensures w.base == VehicleWords[Pick(u1, 3)]
  {
    var base := VehicleWords[Pick(u1, 3)];
    if base == Boong then
      var n := Pick(u2, 4) + 1;
      var chars := ["\U{BD80}"] + Repeat("\U{B974}", n) + ["\U{B989}"];
      assert chars[1..|chars| - 1] == Repeat("\U{B974}", n);
      Word(base, chars)
    else if base == Ttareureung then
      var n := Pick(u2, 4) + 1;
      var chars := ["\U{B530}"] + Repeat("\U{B974}", n) + ["\U{B989}"];
      assert chars[1..|chars| - 1] == Repeat("\U{B974}", n);
      Word(base, chars)
    else
      Word(base, Repeat("\U{BE75}", Pick(u2, 4) + 2))
  }

  /** The queue entries for a word: one vehicle token per character, in reading order. */
  function VehicleTokens(w: Word): (q: seq<Token>)
    ensures |q| == |w.chars|
    ensures forall i :: 0 <= i < |q| ==> q[i] == Moving(w.chars[i], VehicleKind, Some(w.base))
  {
    seq(|w.chars|, i requires 0 <= i < |w.chars| => Moving(w.chars[i], VehicleKind, Some(w.base)))
  }

  /** A vehicle word takes between 2 and 6 conveyor cells, none of them blank. */
  lemma VehicleWordCells(u1: real, u2: real)
    requires 0.0 <= u1 < 1.0 && 0.0 <= u2 < 1.0
    ensures var q := VehicleTokens(BuildVehicleWord(u1, u2)); 2 <= |q| <= 6 && Blank !in q
  {
  }

  /** What enters a line this step: the queue head, or "숨" when the queue is empty. */
  function Head(q: seq<Token>): (t: Token)
    ensures q == [] ==> t == Blank
    ensures q != [] ==> t == q[0]
  {
    if q == [] then Blank else q[0]
  }

  /** The queue after `shift()`; an empty queue stays empty. */
  function Rest(q: seq<Token>): (r: seq<Token>)
    ensures q == [] ==> r == []
    ensures q != [] ==> [q[0]] + r == q
  {
    if q == [] then [] else q[1..]
  }

  /** One conveyor step: every cell takes its neighbour from the entry side, the exit cell's token drops out, and `entry` fills the entry cell. */
  function Conveyed(buf: seq<Token>, entry: Token, entryAtStart: bool): (r: seq<Token>)
    requires |buf| >= 1
    ensures |r| == |buf|
    ensures entryAtStart ==> r[0] == entry && forall i :: 1 <= i < |r| ==> r[i] == buf[i - 1]
    ensures !entryAtStart ==> r[|r| - 1] == entry && forall i :: 0 <= i < |r| - 1 ==> r[i] == buf[i + 1]
  {
    if entryAtStart then [entry] + buf[..|buf| - 1] else buf[1..] + [entry]
  }

  /** `buf` as a multiset loses exactly the exit token and gains the entry token. */
  lemma ConveyedTokens(buf: seq<Token>, entry: Token, entryAtStart: bool)
    requires |buf| >= 1
    ensures entryAtStart ==>
      multiset(Conveyed(buf, entry, entryAtStart)) + multiset{buf[|buf| - 1]} == multiset(buf) + multiset{entry}
    ensures !entryAtStart ==>
      multiset(Conveyed(buf, entry, entryAtStart)) + multiset{buf[0]} == multiset(buf) + multiset{entry}
  {
    if entryAtStart {
      assert buf == buf[..|buf| - 1] + [buf[|buf| - 1]];
    } else {
      assert buf == [buf[0]] + buf[1..];
    }
  }

  /** The in-place shift loop of `advanceTownBuffer` / `advanceCityBuffer`, followed by the write of `entry` at the entry cell. */
  method ShiftIn(arr: array<Token>, entry: Token, entryAtStart: bool)
    requires arr.Length >= 1
    modifies arr
    ensures arr[..] == Conveyed(old(arr[..]), entry, entryAtStart)
  {
    if entryAtStart {
      var i := arr.Length - 1;
      while i > 0
        invariant 0 <= i <= arr.Length - 1
        invariant forall k :: 0 <= k <= i ==> arr[k] == old(arr[k])
        invariant forall k :: i < k < arr.Length ==> arr[k] == old(arr[k - 1])
      {
        arr[i] := arr[i - 1];
        i := i - 1;
      }
      arr[0] := entry;
    } else {
      var i := 0;
      while i < arr.Length - 1
        invariant 0 <= i <= arr.Length - 1
        invariant forall k :: i <= k < arr.Length ==> arr[k] == old(arr[k])
        invariant forall k :: 0 <= k < i ==> arr[k] == old(arr[k + 1])
      {
        arr[i] := arr[i + 1];
        i := i + 1;
      }
      arr[arr.Length - 1] := entry;
    }
  }

  /** Every cell holds the bare "숨". */
  predicate AllBlank(buf: seq<Token>) {
    forall i :: 0 <= i < |buf| ==> buf[i] == Blank
  }

  /** The buffer after `n` steps fed from queue `q` (then from "숨" once `q` runs out). */
  function ConveyN(buf: seq<Token>, q: seq<Token>, entryAtStart: bool, n: nat): (r: seq<Token>)
    requires |buf| >= 1
    ensures |r| == |buf|
  {
    if n == 0 then buf
    else Conveyed(ConveyN(buf, q, entryAtStart, n - 1), if n - 1 < |q| then q[n - 1] else Blank, entryAtStart)
  }

  /** Once the queue is used up, each further forward step adds one more "숨" at the start. */
  lemma {:induction false} ForwardBlankPrefix(buf: seq<Token>, q: seq<Token>, n: nat)
    requires |buf| >= 1 && n >= |q|
    ensures forall i :: 0 <= i < |buf| && i < n - |q| ==> ConveyN(buf, q, true, n)[i] == Blank
  {
    if n > |q| {
      ForwardBlankPrefix(buf, q, n - 1);
      var prev := ConveyN(buf, q, true, n - 1);
      var r := ConveyN(buf, q, true, n);
      assert r == Conveyed(prev, Blank, true);
      forall i | 1 <= i < |r| && i < n - |q|
        ensures r[i] == Blank
      {
        assert 0 <= i - 1 < |prev| && i - 1 < (n - 1) - |q|;
        assert prev[i - 1] == Blank;
        assert r[i] == prev[i - 1];
      }
    }
  }

  /** Once the queue is used up, each further backward step adds one more "숨" at the end. */
  lemma {:induction false} BackwardBlankSuffix(buf: seq<Token>, q: seq<Token>, n: nat)
    requires |buf| >= 1 && n >= |q|
    ensures forall i :: 0 <= i < |buf| && |buf| - n + |q| <= i ==> ConveyN(buf, q, false, n)[i] == Blank
  {
    if n > |q| {
      BackwardBlankSuffix(buf, q, n - 1);
      var prev := ConveyN(buf, q, false, n - 1);
      var r := ConveyN(buf, q, false, n);
      assert r == Conveyed(prev, Blank, false);
      forall i | 0 <= i < |r| - 1 && |r| - n + |q| <= i
        ensures r[i] == Blank
      {
        assert 0 <= i + 1 < |prev| && |prev| - (n - 1) + |q| <= i + 1;
        assert r[i] == prev[i + 1];
      }
    }
  }

  /** A line fed by `q` holds only "숨" after `|q| + |buf|` steps: so the town tick, which removes a line whose queue is empty and whose cells are all "숨", removes it by then. */
  lemma LineDrains(buf: seq<Token>, q: seq<Token>, entryAtStart: bool)
    requires |buf| >= 1
    ensures AllBlank(ConveyN(buf, q, entryAtStart, |q| + |buf|))
  {
    if entryAtStart {
      ForwardBlankPrefix(buf, q, |q| + |buf|);
    } else {
      BackwardBlankSuffix(buf, q, |q| + |buf|);
    }
  }
}
