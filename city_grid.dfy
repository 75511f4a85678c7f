// Grid geometry of the "breath hidden city" page: the odd side length chosen from the
// window area, the column count, the stage a side falls in, the centre cell, flat
// index <-> (row, column) conversion, and the Manhattan rings of the group wave.
// `Math.pow(_, 1.35)` is a parameter with the bound it has on [0, 1].
module CityGrid {
  import opened Wrappers
  import opened JsStrings

  /** `clamp(n, lo, hi)`. */
  function Clamp(n: real, lo: real, hi: real): (r: real)
    ensures lo <= hi ==> lo <= r <= hi
    ensures lo <= n <= hi ==> r == n
    ensures n < lo ==> r == lo
    ensures lo <= n && n > hi ==> r == hi
  {
    if n < lo then lo else if n > hi then hi else n
  }

  predicate Odd(n: int) {
    n % 2 == 1
  }

  /** `nearestOdd`: round, then step up to the next odd integer when the rounded value is even. */
  function NearestOdd(x: real): (r: int)
    ensures Odd(r)
    ensures r == JsRound(x) || r == JsRound(x) + 1
    ensures x - 0.5 < r as real <= x + 1.5
  {
    var r := JsRound(x);
    if r % 2 == 0 then r + 1 else r
  }

  /** Odd integers are their own nearest odd number. */
  lemma NearestOddOfOdd(n: int)
    requires Odd(n)
    ensures NearestOdd(n as real) == n
  {
    assert (n as real + 0.5).Floor == n;
  }

  const AreaMin: real := 320.0 * 560.0
  const AreaMax: real := 1920.0 * 1080.0 * 1.4
  const MaxSide := 47

  /** `areaToSide`: an odd side in [1, 47] growing with the window area; `None` stands for a non-finite area. `pow135(b)` is `Math.pow(b, 1.35)`. */
  function AreaToSide(area: Option<real>, pow135: real -> real): (side: int)
    requires forall b :: 0.0 <= b <= 1.0 ==> 0.0 <= pow135(b) <= 1.0
    ensures Odd(side) && 1 <= side <= MaxSide
    ensures area.None? || area.value <= 0.0 ==> side == 1
  {
    if area.None? || area.value <= 0.0 then 1
    else
      var t := Clamp((area.value - AreaMin) / (AreaMax - AreaMin), 0.0, 1.0);
      var eased := 1.0 - pow135(1.0 - t);
      var side := 1.0 + eased * (MaxSide - 1) as real;
      assert 1 <= NearestOdd(side) <= MaxSide;
      Clamp(NearestOdd(side) as real, 1.0, MaxSide as real).Floor
  }

  /** `sideToCols`: half as many columns again, rounded to an odd count. */
  function SideToCols(side: int): (cols: int)
    ensures Odd(cols)
    ensures side >= 0 ==> cols >= side
    ensures side >= 0 ==> cols <= side + side / 2 + 1
  {
    var extra := side / 2;
    NearestOdd((side + extra) as real)
  }

  datatype StageKey = Human | Them | Town | City

  /** One entry of `STAGES`: the stage applies to sides in [a, b). */
  datatype Stage = Stage(k: StageKey, a: int, b: int)

  const Stages: seq<Stage> := [Stage(Human, 1, 2), Stage(Them, 2, 6), Stage(Town, 6, 15), Stage(City, 15, 47)]

  /** The first stage of `stages` whose range holds `side`, or the last of all stages when none does. */
  function FirstStage(stages: seq<Stage>, side: int): (s: Stage)
    ensures s in stages || s == Stages[|Stages| - 1]
    ensures s.a <= side < s.b || s == Stages[|Stages| - 1]
  {
    if stages == [] then Stages[|Stages| - 1]
    else if stages[0].a <= side < stages[0].b then stages[0]
    else FirstStage(stages[1..], side)
  }

  /** `pickStage`: scan the stages in order and return the first that holds `side`; fall back to CITY. */
  method PickStage(side: int) returns (s: Stage)
    ensures s == FirstStage(Stages, side)
  {
    var i := 0;
    while i < |Stages|
      invariant 0 <= i <= |Stages|
      invariant FirstStage(Stages[i..], side) == FirstStage(Stages, side)
    {
      if Stages[i].a <= side < Stages[i].b {
        return Stages[i];
      }
      assert Stages[i..][1..] == Stages[i + 1..];
      i := i + 1;
    }
    return Stages[|Stages| - 1];
  }

  /** On the odd sides the page produces: 1 is HUMAN, 3-5 THEM, 7-13 TOWN, and 15-47 CITY. */
  lemma OddSideStages(side: int)
    requires Odd(side) && 1 <= side <= MaxSide
    ensures side == 1 <==> FirstStage(Stages, side).k == Human
    ensures 3 <= side <= 5 <==> FirstStage(Stages, side).k == Them
    ensures 7 <= side <= 13 <==> FirstStage(Stages, side).k == Town
    ensures 15 <= side <= 47 <==> FirstStage(Stages, side).k == City
  {
    var s1, s2, s3 := Stages[1..], Stages[2..], Stages[3..];
    assert s1[1..] == s2 && s2[1..] == s3 && s3[1..] == [];
    assert FirstStage(s3, side) == Stages[3];
    assert side >= 6 ==> FirstStage(s2, side) == if side < 15 then Stages[2] else Stages[3];
    assert side >= 2 ==> FirstStage(s1, side) == if side < 6 then Stages[1] else FirstStage(s2, side);
    assert FirstStage(Stages, side) == if side < 2 then Stages[0] else FirstStage(s1, side);
  }

  /** `getCenterIndex`: `centerFlat` as the real number the script computes. */
  function CenterFlat(rows: int, cols: int): (c: real)
    ensures 2.0 * c == (rows * cols - 1) as real
  {
    ((rows - 1) as real / 2.0) * cols as real + (cols - 1) as real / 2.0
  }

  /** The centre is a whole cell index exactly when both dimensions are odd; for even grids no cell is the centre. */
  lemma CenterIsCellIffOdd(rows: int, cols: int)
    ensures (CenterFlat(rows, cols).Floor as real == CenterFlat(rows, cols)) <==> (Odd(rows) && Odd(cols))
  {
    var c := CenterFlat(rows, cols);
    var p := rows * cols;
    if Odd(rows) && Odd(cols) {
      OddProduct(rows, cols);
      assert c == ((p - 1) / 2) as real;
    } else {
      EvenProduct(rows, cols);
      assert c == ((p - 1) / 2) as real + 0.5;
      assert c.Floor == (p - 1) / 2;
    }
  }

  lemma OddProduct(a: int, b: int)
    requires Odd(a) && Odd(b)
    ensures Odd(a * b)
  {
    var i, j := a / 2, b / 2;
    assert a * b == 2 * (2 * i * j + i + j) + 1;
  }

  lemma EvenProduct(a: int, b: int)
    requires !(Odd(a) && Odd(b))
    ensures (a * b) % 2 == 0
  {
    var x: int;
    if !Odd(a) {
      var k := a / 2;
      assert a == 2 * k;
      x := k * b;
      assert a * b == 2 * x;
    } else {
      var k := b / 2;
      assert b == 2 * k;
      x := a * k;
      assert a * b == 2 * x;
    }
    var p := a * b;
    assert p == 2 * x;
  }

  /** `rcToIndex`. */
  function RcToIndex(r: int, c: int, cols: int): (index: int)
    ensures 0 <= r && 0 <= c < cols ==> r * cols <= index < (r + 1) * cols
  {
    r * cols + c
  }

  /** JavaScript `a % b` for integers: the remainder takes the sign of `a`. */
  function JsRem(a: int, b: int): (m: int)
    requires b != 0
    ensures a >= 0 ==> 0 <= m < if b > 0 then b else -b
  {
    if a >= 0 then a % b else -((-a) % b)
  }

  /** `indexToRC`: `Math.floor(index / cols)` and `index % cols`. */
  function IndexToRc(index: int, cols: int): (rc: (int, int))
    requires cols > 0
    ensures index >= 0 ==> rc.0 >= 0 && 0 <= rc.1 < cols && RcToIndex(rc.0, rc.1, cols) == index
  {
    (index / cols, JsRem(index, cols))
  }

  /** A cell in a row at or after the first comes back from its flat index unchanged. */
  lemma IndexRoundTrip(r: int, c: int, cols: int)
    requires r >= 0 && 0 <= c < cols
    ensures IndexToRc(RcToIndex(r, c, cols), cols) == (r, c)
  {
    var i := RcToIndex(r, c, cols);
    assert i >= 0;
    assert i / cols == r && i % cols == c by {
      LemmaDivModUnique(i, cols, r, c);
    }
  }

  lemma LemmaDivModUnique(i: int, cols: int, r: int, c: int)
    requires cols > 0 && 0 <= c < cols && i == r * cols + c
    ensures i / cols == r && i % cols == c
  {
    var d := i / cols - r;
    assert d * cols == c - i % cols;
    ZeroMultiple(d, cols);
  }

  /** A multiple of `cols` strictly between `-cols` and `cols` is zero. */
  lemma ZeroMultiple(d: int, cols: int)
    requires cols > 0 && -cols < d * cols < cols
    ensures d == 0
  {
    if d > 0 {
      MulAtLeast(d, cols);
    } else if d < 0 {
      MulAtLeast(-d, cols);
    }
  }

  lemma MulAtLeast(d: int, cols: int)
    requires d >= 1 && cols > 0
    ensures d * cols >= cols
  {
    assert d * cols == (d - 1) * cols + cols;
  }

  /** Before the first row, the script's conversion no longer inverts `rcToIndex`: JavaScript's remainder is negative there. */
  lemma IndexRoundTripNeedsRow()
    ensures IndexToRc(RcToIndex(-1, 1, 5), 5) != (-1, 1)
  {
    assert RcToIndex(-1, 1, 5) == -4;
    assert JsRem(-4, 5) == -4;
  }

  function Abs(n: int): (a: int)
    ensures a >= 0 && (a == n || a == -n)
  {
    if n < 0 then -n else n
  }

  /** Manhattan distance of the cell (r, c) from (cr, cc). */
  function Manhattan(r: int, c: int, cr: int, cc: int): nat {
    Abs(r - cr) + Abs(c - cc)
  }

  predicate InGrid(r: int, c: int, rows: int, cols: int) {
    0 <= r < rows && 0 <= c < cols
  }

  /** The ring loop of `runWaveFrom` for one radius: scan the square around the centre row by row and keep the in-grid cells at exactly that Manhattan distance, as flat indices. */
  method RingCells(cr: int, cc: int, rows: int, cols: int, radius: nat) returns (ring: seq<int>)
    ensures forall idx :: idx in ring ==>
      exists r, c :: InGrid(r, c, rows, cols) && Manhattan(r, c, cr, cc) == radius && idx == RcToIndex(r, c, cols)
    ensures forall r, c :: InGrid(r, c, rows, cols) && Manhattan(r, c, cr, cc) == radius ==> RcToIndex(r, c, cols) in ring
  {
    ring := [];
    var dr: int := -(radius as int);
    while dr <= radius
      invariant -(radius as int) <= dr <= radius + 1
      invariant forall idx :: idx in ring ==>
        exists r, c :: InGrid(r, c, rows, cols) && Manhattan(r, c, cr, cc) == radius && idx == RcToIndex(r, c, cols)
      invariant forall r, c :: InGrid(r, c, rows, cols) && Manhattan(r, c, cr, cc) == radius && r < cr + dr ==>
        RcToIndex(r, c, cols) in ring
    {
      var dc: int := -(radius as int);
      while dc <= radius
        invariant -(radius as int) <= dc <= radius + 1
        invariant forall idx :: idx in ring ==>
          exists r, c :: InGrid(r, c, rows, cols) && Manhattan(r, c, cr, cc) == radius && idx == RcToIndex(r, c, cols)
        invariant forall r, c :: InGrid(r, c, rows, cols) && Manhattan(r, c, cr, cc) == radius && r < cr + dr ==>
          RcToIndex(r, c, cols) in ring
        invariant forall r, c :: InGrid(r, c, rows, cols) && Manhattan(r, c, cr, cc) == radius && r == cr + dr && c < cc + dc ==>
          RcToIndex(r, c, cols) in ring
      {
        var nr, nc := cr + dr, cc + dc;
        if InGrid(nr, nc, rows, cols) && Abs(dr) + Abs(dc) == radius {
          ring := ring + [RcToIndex(nr, nc, cols)];
        }
        dc := dc + 1;
      }
      dr := dr + 1;
    }
  }
}
