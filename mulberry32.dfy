// The seeded generator of the TypoMoss renderer (Mulberry32). Every JavaScript
// operation it uses (`| 0`, `>>>`, `^`, `|`, `Math.imul`, and an addition whose result
// is immediately truncated by `^`) is exact modulo 2^32, so the closure state is a
// 32-bit word, kept here as an integer in [0, 2^32), and each call is a pure step on it.
// The bitwise operators are defined bit by bit, low bit first.
module Mulberry32 {

  const Modulus: int := 0x1_0000_0000

  /** An unsigned 32-bit word. */
  type Word = x: int | 0 <= x < 0x1_0000_0000

  /** The Weyl increment added to the state on every call. */
  const Increment: Word := 0x6D2B79F5

  /** `a ^ b` on the low `k` bits. */
  function XorBits(a: nat, b: nat, k: nat): nat {
    if k == 0 then 0 else (a % 2 + b % 2) % 2 + 2 * XorBits(a / 2, b / 2, k - 1)
  }

  /** Zero xor zero is zero, on any number of bits. */
  lemma {:induction false} XorBitsZero(a: nat, b: nat, k: nat)
    requires a == 0 && b == 0
    ensures XorBits(a, b, k) == 0
  {
    if k > 0 {
      XorBitsZero(a / 2, b / 2, k - 1);
    }
  }

  /** `a | b` on the low `k` bits. */
  function OrBits(a: nat, b: nat, k: nat): nat {
    if k == 0 then 0 else (if a % 2 == 1 || b % 2 == 1 then 1 else 0) + 2 * OrBits(a / 2, b / 2, k - 1)
  }

  /** `a ^ b` on 32-bit words (the reduction is a no-op on 32 bits). */
  function Xor(a: Word, b: Word): Word {
    XorBits(a, b, 32) % Modulus
  }

  /** `a | b` on 32-bit words (the reduction is a no-op on 32 bits). */
  function Or(a: Word, b: Word): Word {
    OrBits(a, b, 32) % Modulus
  }

  /** `Math.imul(a, b)`, read back as an unsigned word: the low 32 bits of the product. */
  function Imul(a: Word, b: Word): (r: Word)
    ensures a == 0 || b == 0 ==> r == 0
    ensures b == 1 ==> r == a
    ensures a * b < Modulus ==> r == a * b
  {
    var p := a * b;
    LowBits(a, b, p);
    p % Modulus
  }

  /** The low 32 bits of a product in the cases where no bit is lost. */
  lemma LowBits(a: Word, b: Word, p: int)
    requires p == a * b
    ensures a == 0 || b == 0 ==> p % Modulus == 0
    ensures b == 1 ==> p % Modulus == a
    ensures p < Modulus ==> p % Modulus == p
  {
    if a == 0 || b == 0 {
      assert p == 0;
    }
    if b == 1 {
      assert p == a;
    }
  }

  /** A sum truncated to 32 bits (`(a + b) | 0`, or a sum fed to `^`). */
  function Add(a: Word, b: Word): Word {
    (a + b) % Modulus
  }

  /** The closure state for a numeric integer seed: ToInt32(seed), kept as its 32 bits. */
  function SeedState(seed: int): Word {
    seed % Modulus
  }

  /** `state = (state + 0x6D2B79F5) | 0`. */
  function Advance(s: Word): Word {
    Add(s, Increment)
  }

  /** The tempering applied to the advanced state; the result is the `>>> 0` value. */
  function Temper(s: Word): (r: Word)
    ensures s == 0 ==> r == 0
  {
    var t := Imul(Xor(s, s / 0x8000), Or(1, s));
    var t2 := Xor(Add(t, Imul(Xor(t, t / 0x80), Or(61, t))), t);
    var r := Xor(t2, t2 / 0x4000);
    ZeroTempered(s, t, t2);
    r
  }

  /** The three tempering rounds keep the all-zero word at zero. */
  lemma ZeroTempered(s: Word, t: Word, t2: Word)
    requires t == Imul(Xor(s, s / 0x8000), Or(1, s))
    requires t2 == Xor(Add(t, Imul(Xor(t, t / 0x80), Or(61, t))), t)
    ensures s == 0 ==> Xor(t2, t2 / 0x4000) == 0
  {
    if s == 0 {
      XorZeros(s, s / 0x8000);
      assert t == 0;
      XorZeros(t, t / 0x80);
      var u := Add(t, Imul(Xor(t, t / 0x80), Or(61, t)));
      assert u == 0;
      XorZeros(u, t);
      XorZeros(t2, t2 / 0x4000);
    }
  }

  /** `0 ^ 0` on 32-bit words. */
  lemma XorZeros(a: Word, b: Word)
    requires a == 0 && b == 0
    ensures Xor(a, b) == 0
  {
    XorBitsZero(a, b, 32);
  }

  /** Division of the unsigned 32-bit value by 2^32. */
  function ToUnit(u: Word): (r: real)
    ensures 0.0 <= r < 1.0
    ensures r * 4294967296.0 == u as real
  {
    u as real / 4294967296.0
  }

  /** One call of the returned closure: the number drawn and the new state. */
  function Next(s: Word): (r: (real, Word))
    ensures 0.0 <= r.0 < 1.0
    ensures r.1 == Advance(s)
  {
    var s' := Advance(s);
    (ToUnit(Temper(s')), s')
  }

  /** Every call draws from [0, 1). */
  lemma NextInRange()
    ensures forall s: Word :: 0.0 <= Next(s).0 < 1.0
  {
  }

  /** A generator step: a pure function from the closure state to the number drawn and the new state. */
  ghost predicate DrawsUnit(f: Word -> (real, Word)) {
    forall s :: 0.0 <= f(s).0 < 1.0
  }

  type Step = f: Word -> (real, Word) | DrawsUnit(f)
    witness (s: Word) => (0.0, s)

  /** The Mulberry32 closure call as a generator step. */
  function MulberryStep(): (f: Step)
    ensures f == Next
    ensures forall s :: f(s).1 == Advance(s)
  {
    NextInRange();
    Next
  }

  /** The state after `n` calls of the step `f`. */
  function StateAfter(f: Word -> (real, Word), s: Word, n: nat): Word
    decreases n
  {
    if n == 0 then s else StateAfter(f, f(s).1, n - 1)
  }

  /** The numbers produced by `n` successive calls of the step `f` from state `s`. */
  function Draws(f: Word -> (real, Word), s: Word, n: nat): (r: seq<real>)
    ensures |r| == n
    decreases n
  {
    if n == 0 then [] else [f(s).0] + Draws(f, f(s).1, n - 1)
  }

  /** Drawing m numbers and then n more is drawing m + n numbers. */
  lemma {:induction false} DrawsSplit(f: Word -> (real, Word), s: Word, m: nat, n: nat)
    ensures Draws(f, s, m + n) == Draws(f, s, m) + Draws(f, StateAfter(f, s, m), n)
    decreases m
  {
    if m > 0 {
      DrawsSplit(f, f(s).1, m - 1, n);
      assert Draws(f, s, m + n) == [f(s).0] + Draws(f, f(s).1, m - 1 + n);
    }
  }

  /** The i-th draw depends only on the state reached after the first i draws. */
  lemma {:induction false} DrawAt(f: Word -> (real, Word), s: Word, n: nat, i: nat)
    requires i < n
    ensures Draws(f, s, n)[i] == f(StateAfter(f, s, i)).0
    decreases i
  {
    if i > 0 {
      DrawAt(f, f(s).1, n - 1, i - 1);
    }
  }

  /** The generator's state advances by the increment on each call, so after n calls it has moved by n increments. */
  lemma {:induction false} StateAfterIsOffset(f: Word -> (real, Word), s: Word, n: nat)
    requires forall x :: f(x).1 == Advance(x)
    ensures StateAfter(f, s, n) == (s + n * Increment) % Modulus
    decreases n
  {
    if n > 0 {
      StateAfterIsOffset(f, Advance(s), n - 1);
      OffsetStep(s, n);
    }
  }

  /** One increment taken first, then n - 1 more, is n increments. */
  lemma OffsetStep(s: Word, n: nat)
    requires n > 0
    ensures (Advance(s) + (n - 1) * Increment) % Modulus == (s + n * Increment) % Modulus
  {
    ModAddLeft(s + Increment, (n - 1) * Increment);
  }

  /** Reducing the left summand first does not change a sum modulo 2^32. */
  lemma ModAddLeft(a: int, b: int)
    ensures (a % Modulus + b) % Modulus == (a + b) % Modulus
  {
    var q := a / Modulus;
    assert a == q * Modulus + a % Modulus;
    assert a + b == (a % Modulus + b) + q * Modulus;
  }
}
