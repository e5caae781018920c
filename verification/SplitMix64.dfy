/**
 The versioned pseudo-random generator behind the bootstrap intervals.

 Words are natural numbers below 2^64, as in the source; masking is remainder, shifting is division
 by a power of two.  The output function is shown to be a bijection and the increment to have full
 period, which is what makes rejection sampling terminate early and stay unbiased.
 */
module SplitMix64 {
  import opened Options
  import opened Powers
  import opened Sets

  const RANGE: nat := 0x1_0000_0000_0000_0000
  const GAMMA: nat := 0x9E3779B97F4A7C15
  const MUL1: nat := 0xBF58476D1CE4E5B9
  const MUL2: nat := 0x94D049BB133111EB

  // ----- exclusive or on natural numbers

  function Xor(a: nat, b: nat): nat
    decreases a + b
  {
    if a == 0 && b == 0 then 0 else (a + b) % 2 + 2 * Xor(a / 2, b / 2)
  }

  /** `v >> k`. */
  function Shift(v: nat, k: nat): nat {
    if k == 0 then v else Shift(v / 2, k - 1)
  }

  lemma XorHalves(a: nat, b: nat)
    ensures Xor(a, b) / 2 == Xor(a / 2, b / 2) && Xor(a, b) % 2 == (a + b) % 2
  {
  }

  lemma {:induction false} XorZero(a: nat)
    ensures Xor(a, 0) == a
  {
    if a > 0 {
      XorZero(a / 2);
    }
  }

  lemma {:induction false} XorSelf(a: nat)
    ensures Xor(a, a) == 0
  {
    if a > 0 {
      XorSelf(a / 2);
    }
  }

  lemma {:induction false} XorAssociates(a: nat, b: nat, c: nat)
    ensures Xor(Xor(a, b), c) == Xor(a, Xor(b, c))
    decreases a + b + c
  {
    if a + b + c > 0 {
      var ab, bc := Xor(a, b), Xor(b, c);
      XorHalves(a, b);
      XorHalves(b, c);
      XorAssociates(a / 2, b / 2, c / 2);
      XorHalves(ab, c);
      XorHalves(a, bc);
      SameHalves(Xor(ab, c), Xor(a, bc), a, b, c, ab, bc);
    }
  }

  lemma SameHalves(l: nat, r: nat, a: nat, b: nat, c: nat, ab: nat, bc: nat)
    requires l / 2 == r / 2
    requires l % 2 == (ab + c) % 2 && r % 2 == (a + bc) % 2 && ab % 2 == (a + b) % 2 && bc % 2 == (b + c) % 2
    ensures l == r
  {
  }

  /** `a ^ b` cancels: the operation is its own inverse. */
  lemma XorCancels(a: nat, b: nat)
    ensures Xor(Xor(a, b), b) == a
  {
    XorAssociates(a, b, b);
    XorSelf(b);
    XorZero(a);
  }

  lemma {:induction false} ShiftXor(a: nat, b: nat, k: nat)
    ensures Shift(Xor(a, b), k) == Xor(Shift(a, k), Shift(b, k))
    decreases k
  {
    if k > 0 {
      XorHalves(a, b);
      ShiftXor(a / 2, b / 2, k - 1);
    }
  }

  lemma {:induction false} ShiftShift(a: nat, j: nat, k: nat)
    ensures Shift(Shift(a, j), k) == Shift(a, j + k)
    decreases j
  {
    if j > 0 {
      ShiftShift(a / 2, j - 1, k);
    }
  }

  lemma {:induction false} ShiftOut(a: nat, k: nat)
    requires a < Pow2(k)
    ensures Shift(a, k) == 0
    decreases k
  {
    if k > 0 {
      ShiftOut(a / 2, k - 1);
    }
  }

  lemma {:induction false} ShiftSmaller(a: nat, k: nat)
    ensures Shift(a, k) <= a
    decreases k
  {
    if k > 0 {
      ShiftSmaller(a / 2, k - 1);
    }
  }

  lemma {:induction false} XorBound(a: nat, b: nat, k: nat)
    requires a < Pow2(k) && b < Pow2(k)
    ensures Xor(a, b) < Pow2(k)
    decreases k
  {
    if k > 0 {
      XorBound(a / 2, b / 2, k - 1);
    }
  }

  lemma RangeIsPow2()
    ensures Pow2(64) == RANGE
  {
    assert Pow2(8) == 256;
    assert Pow2(16) == 65536 by { assert Pow2(12) == 4096; }
    assert Pow2(24) == 0x1000000 by { assert Pow2(20) == 0x100000; }
    assert Pow2(32) == 0x1_0000_0000 by { assert Pow2(28) == 0x10000000; }
    assert Pow2(40) == 0x100_0000_0000 by { assert Pow2(36) == 0x10_0000_0000; }
    assert Pow2(48) == 0x1_0000_0000_0000 by { assert Pow2(44) == 0x1000_0000_0000; }
    assert Pow2(56) == 0x100_0000_0000_0000 by { assert Pow2(52) == 0x10_0000_0000_0000; }
    assert Pow2(60) == 0x1000_0000_0000_0000;
  }

  // ----- the output function

  function Mask(v: nat): nat {
    v % RANGE
  }

  /** `v ^ (v >> k)`. */
  function XorShift(v: nat, k: nat): nat {
    Xor(v, Shift(v, k))
  }

  /** `((v ^ (v >> k)) * m) & mask`. */
  function Round(v: nat, k: nat, m: nat): nat {
    Mask(XorShift(v, k) * m)
  }

  /** The output of the generator in state `state`; the last round does not multiply. */
  function Mix(state: nat): nat {
    Round(Round(Round(state, 30, MUL1), 27, MUL2), 31, 1)
  }

  lemma XorShiftBound(v: nat, k: nat)
    requires v < RANGE
    ensures XorShift(v, k) < RANGE
  {
    RangeIsPow2();
    ShiftSmaller(v, k);
    XorBound(v, Shift(v, k), 64);
  }

  /** A right xor-shift by at least 22 bits is undone by two more. */
  lemma XorShiftInverts(v: nat, k: nat)
    requires v < RANGE && k >= 22
    ensures var y := XorShift(v, k); Xor(Xor(y, Shift(y, k)), Shift(y, 2 * k)) == v
  {
    var y, a, b := XorShift(v, k), Shift(v, k), Shift(v, 2 * k);
    ShiftXor(v, a, k);
    ShiftShift(v, k, k);
    assert Shift(y, k) == Xor(a, b);
    ShiftXor(v, a, 2 * k);
    ShiftShift(v, k, 2 * k);
    assert Shift(v, 3 * k) == 0 by {
      RangeIsPow2();
      ShiftOut(v, 64);
      ShiftShift(v, 64, 3 * k - 64);
      ShiftZero(3 * k - 64);
    }
    XorZero(b);
    assert Shift(y, 2 * k) == b;
    XorAssociates(y, Xor(a, b), b);
    XorCancels(a, b);
    XorCancels(v, a);
  }

  lemma {:induction false} ShiftZero(k: nat)
    ensures Shift(0, k) == 0
  {
    if k > 0 {
      ShiftZero(k - 1);
    }
  }

  /** Multiplying by an odd constant is undone by multiplying with its inverse. */
  lemma MultiplyInverts(v: nat, m: nat, inverse: nat, q: nat)
    requires v < RANGE && m * inverse == 1 + q * RANGE
    ensures Mask(Mask(v * m) * inverse) == v
  {
    var w := v * m;
    var lost := w / RANGE;
    assert Mask(w) == w - lost * RANGE;
    calc {
      Mask(w) * inverse;
      (w - lost * RANGE) * inverse;
      w * inverse - lost * RANGE * inverse;
      v * (m * inverse) - lost * inverse * RANGE;
      v * (1 + q * RANGE) - lost * inverse * RANGE;
      v + (v * q - lost * inverse) * RANGE;
    }
    RemainderOfShifted(v, v * q - lost * inverse);
  }

  lemma RemainderOfShifted(v: nat, k: int)
    requires v < RANGE && v + k * RANGE >= 0
    ensures Mask(v + k * RANGE) == v
  {
  }

  /** The generator's output function is injective on 64-bit words. */
  lemma MixIsInjective(a: nat, b: nat)
    requires a < RANGE && b < RANGE && Mix(a) == Mix(b)
    ensures a == b
  {
    UnmixMix(a);
    UnmixMix(b);
  }

  function UnXorShift(y: nat, k: nat): nat {
    Xor(Xor(y, Shift(y, k)), Shift(y, 2 * k))
  }

  function UnRound(w: nat, k: nat, inverse: nat): nat {
    UnXorShift(Mask(w * inverse), k)
  }

  function Unmix(output: nat): nat {
    UnRound(UnRound(UnRound(output, 31, 1), 27, 0x319642B2D24D8EC3), 30, 0x96DE1B173F119089)
  }

  lemma UnRoundRound(v: nat, k: nat, m: nat, inverse: nat, q: nat)
    requires v < RANGE && k >= 22 && m * inverse == 1 + q * RANGE
    ensures UnRound(Round(v, k, m), k, inverse) == v
  {
    XorShiftBound(v, k);
    MultiplyInverts(XorShift(v, k), m, inverse, q);
    XorShiftInverts(v, k);
  }

  lemma UnmixMix(state: nat)
    requires state < RANGE
    ensures Unmix(Mix(state)) == state
  {
    var v1 := Round(state, 30, MUL1);
    var v2 := Round(v1, 27, MUL2);
    UnRoundRound(state, 30, MUL1, 0x96DE1B173F119089, 8125545580553827436);
    UnRoundRound(v1, 27, MUL2, 0x319642B2D24D8EC3, 2077064247507883091);
    UnRoundRound(v2, 31, 1, 1, 0);
  }

  lemma UnXorShiftInverts(y: nat, k: nat)
    requires y < RANGE && k >= 22
    ensures UnXorShift(y, k) < RANGE && XorShift(UnXorShift(y, k), k) == y
  {
    var a, b := Shift(y, k), Shift(y, 2 * k);
    var x := UnXorShift(y, k);
    assert x < RANGE by {
      RangeIsPow2();
      ShiftSmaller(y, k);
      ShiftSmaller(y, 2 * k);
      XorBound(y, a, 64);
      XorBound(Xor(y, a), b, 64);
    }
    ShiftXor(Xor(y, a), b, k);
    ShiftXor(y, a, k);
    ShiftShift(y, k, k);
    ShiftShift(y, 2 * k, k);
    assert Shift(y, 3 * k) == 0 by {
      RangeIsPow2();
      ShiftOut(y, 64);
      ShiftShift(y, 64, 3 * k - 64);
      ShiftZero(3 * k - 64);
    }
    XorZero(Xor(a, b));
    assert Shift(x, k) == Xor(a, b);
    XorAssociates(y, a, b);
    XorCancels(y, Xor(a, b));
  }

  lemma RoundUnRound(w: nat, k: nat, m: nat, inverse: nat, q: nat)
    requires w < RANGE && k >= 22 && m * inverse == 1 + q * RANGE
    ensures UnRound(w, k, inverse) < RANGE && Round(UnRound(w, k, inverse), k, m) == w
  {
    UnXorShiftInverts(Mask(w * inverse), k);
    assert inverse * m == 1 + q * RANGE;
    MultiplyInverts(w, inverse, m, q);
  }

  lemma MixUnmix(output: nat)
    requires output < RANGE
    ensures Unmix(output) < RANGE && Mix(Unmix(output)) == output
  {
    var v2 := UnRound(output, 31, 1);
    RoundUnRound(output, 31, 1, 1, 0);
    var v1 := UnRound(v2, 27, 0x319642B2D24D8EC3);
    RoundUnRound(v2, 27, MUL2, 0x319642B2D24D8EC3, 2077064247507883091);
    RoundUnRound(v1, 30, MUL1, 0x96DE1B173F119089, 8125545580553827436);
  }

  // ----- the sequence of states

  const GAMMA_INVERSE: nat := 0xF1DE83E19937733D

  /** The state after `i` draws. */
  function StateAt(state: nat, i: nat): nat {
    Mask(state + i * GAMMA)
  }

  /** The value of the `i`-th draw, counting from one. */
  function Output(state: nat, i: nat): nat {
    Mix(StateAt(state, i))
  }

  lemma OutputBound(state: nat, i: nat)
    ensures Output(state, i) < RANGE
  {
  }

  lemma StateAtAdds(state: nat, i: nat, j: nat)
    ensures StateAt(StateAt(state, i), j) == StateAt(state, i + j)
  {
    var s := state + i * GAMMA;
    assert s + j * GAMMA == state + (i + j) * GAMMA;
    MaskAbsorbs(s, j * GAMMA);
  }

  lemma MaskAbsorbs(a: nat, b: nat)
    ensures Mask(Mask(a) + b) == Mask(a + b)
  {
  }

  /** The draw at which a given state is reached. */
  function DrawOfState(state: nat, target: nat): nat
    requires target < RANGE
  {
    Mask((target + RANGE - Mask(state)) * GAMMA_INVERSE)
  }

  /** The odd increment visits every 64-bit state exactly once in 2^64 draws. */
  lemma FullPeriod(state: nat, i: nat)
    requires i < RANGE
    ensures DrawOfState(state, StateAt(state, i)) == i
  {
    var t := StateAt(state, i);
    MaskAbsorbs(state, i * GAMMA);
    var d := t + RANGE - Mask(state);
    var k := (Mask(state) + i * GAMMA) / RANGE;
    assert t == Mask(state) + i * GAMMA - k * RANGE;
    assert d == i * GAMMA + (1 - k) * RANGE;
    ScaledInverse(i, d, GAMMA, GAMMA_INVERSE, 10771413168148108919, 1 - k);
  }

  lemma WholePeriods(state: nat, i: nat)
    ensures StateAt(state, i) == StateAt(state, i % RANGE)
  {
    var q, r := i / RANGE, i % RANGE;
    calc {
      state + i * GAMMA;
      state + (q * RANGE + r) * GAMMA;
      state + r * GAMMA + q * GAMMA * RANGE;
    }
    MaskShifted(state + r * GAMMA, q * GAMMA);
  }

  lemma MaskShifted(x: nat, k: nat)
    ensures Mask(x + k * RANGE) == Mask(x)
  {
    assert x + k * RANGE == x % RANGE + (x / RANGE + k) * RANGE;
    RemainderOfShifted(x % RANGE, x / RANGE + k);
  }

  /** Two draws are made in the same state exactly when a multiple of 2^64 draws lies between them. */
  lemma PeriodIsExact(state: nat, i: nat, j: nat)
    ensures StateAt(state, i) == StateAt(state, j) <==> i % RANGE == j % RANGE
  {
    WholePeriods(state, i);
    WholePeriods(state, j);
    FullPeriod(state, i % RANGE);
    FullPeriod(state, j % RANGE);
  }

  lemma ScaledInverse(i: nat, d: nat, m: nat, inverse: nat, q: nat, k: int)
    requires i < RANGE && m * inverse == 1 + q * RANGE && d == i * m + k * RANGE
    ensures Mask(d * inverse) == i
  {
    calc {
      d * inverse;
      (i * m + k * RANGE) * inverse;
      i * (m * inverse) + k * RANGE * inverse;
      i * (1 + q * RANGE) + k * inverse * RANGE;
      i + (i * q + k * inverse) * RANGE;
    }
    RemainderOfShifted(i, i * q + k * inverse);
  }

  lemma EveryStateIsReached(state: nat, target: nat)
    requires target < RANGE
    ensures DrawOfState(state, target) < RANGE && StateAt(state, DrawOfState(state, target)) == target
  {
    var d := target + RANGE - Mask(state);
    var i := DrawOfState(state, target);
    MaskAbsorbs(state, i * GAMMA);
    assert GAMMA_INVERSE * GAMMA == 1 + 10771413168148108919 * RANGE;
    var lost := d * GAMMA_INVERSE / RANGE;
    assert i == d * GAMMA_INVERSE - lost * RANGE;
    calc {
      i * GAMMA;
      (d * GAMMA_INVERSE - lost * RANGE) * GAMMA;
      d * (GAMMA_INVERSE * GAMMA) - lost * GAMMA * RANGE;
      d + (10771413168148108919 * d - lost * GAMMA) * RANGE;
    }
    RemainderOfShifted(target, 1 + 10771413168148108919 * d - lost * GAMMA);
  }

  function DrawOf(state: nat, output: nat): nat
    requires output < RANGE
  {
    MixUnmix(output);
    DrawOfState(state, Unmix(output))
  }

  /** In any 2^64 consecutive draws every 64-bit value is produced exactly once. */
  lemma OutputsAreBijective(state: nat, output: nat, i: nat)
    requires output < RANGE && i < RANGE
    ensures DrawOf(state, output) < RANGE && Output(state, DrawOf(state, output)) == output
    ensures Output(state, i) == output ==> i == DrawOf(state, output)
  {
    MixUnmix(output);
    EveryStateIsReached(state, Unmix(output));
    FullPeriod(state, i);
    UnmixMix(StateAt(state, i));
  }

  // ----- rejection sampling

  predicate ValidBound(bound: int) {
    0 < bound <= RANGE
  }

  function Cutoff(bound: nat): nat
    requires ValidBound(bound)
  {
    RANGE - RANGE % bound
  }

  ghost predicate IsFirstAccepted(state: nat, bound: nat, n: nat)
    requires ValidBound(bound)
  {
    && n >= 1 && Output(state, n) < Cutoff(bound)
    && forall i :: 1 <= i < n ==> Output(state, i) >= Cutoff(bound)
  }

  ghost function Outputs(state: nat, n: nat): set<nat> {
    if n == 0 then {} else Outputs(state, n - 1) + {Output(state, n)}
  }

  lemma {:induction false} OutputsMembers(state: nat, n: nat, v: nat)
    ensures v in Outputs(state, n) ==> exists i :: 1 <= i <= n && Output(state, i) == v
  {
    if n > 0 {
      OutputsMembers(state, n - 1, v);
    }
  }

  lemma {:induction false} OutputsSize(state: nat, n: nat)
    requires n < RANGE
    ensures |Outputs(state, n)| == n
  {
    if n > 0 {
      OutputsSize(state, n - 1);
      var v := Output(state, n);
      if v in Outputs(state, n - 1) {
        OutputsMembers(state, n - 1, v);
        var i :| 1 <= i <= n - 1 && Output(state, i) == v;
        OutputsAreBijective(state, v, i);
        OutputsAreBijective(state, v, n);
        assert false;
      }
    }
  }

  ghost function Interval(lo: nat, hi: nat): (r: set<nat>)
    requires lo <= hi
    ensures |r| == hi - lo && forall v :: v in r <==> lo <= v < hi
    decreases hi - lo
  {
    if lo == hi then {} else Interval(lo, hi - 1) + {hi - 1}
  }

  lemma RejectedDrawsAreFew(state: nat, bound: nat, n: nat)
    requires ValidBound(bound) && n < RANGE
    requires forall i :: 1 <= i <= n ==> Output(state, i) >= Cutoff(bound)
    ensures n <= RANGE % bound
  {
    var rejected := Interval(Cutoff(bound), RANGE);
    forall v | v in Outputs(state, n)
      ensures v in rejected
    {
      OutputsMembers(state, n, v);
    }
    OutputsSize(state, n);
    SubsetSize(Outputs(state, n), rejected);
  }

  lemma RemainderBelowHalf(bound: nat)
    requires ValidBound(bound)
    ensures RANGE % bound + 1 < RANGE
  {
  }

  /** Rejection sampling accepts after at most (2^64 mod bound) + 1 draws. */
  lemma AcceptanceIsNear(state: nat, bound: nat) returns (n: nat)
    requires ValidBound(bound)
    ensures IsFirstAccepted(state, bound, n) && n <= RANGE % bound + 1
  {
    RemainderBelowHalf(bound);
    n := 1;
    while Output(state, n) >= Cutoff(bound)
      invariant 1 <= n <= RANGE % bound + 1
      invariant forall i :: 1 <= i < n ==> Output(state, i) >= Cutoff(bound)
      decreases RANGE % bound + 1 - n
    {
      RejectedDrawsAreFew(state, bound, n);
      n := n + 1;
    }
  }

  lemma AcceptanceExists(state: nat, bound: nat)
    requires ValidBound(bound)
    ensures exists n: nat :: IsFirstAccepted(state, bound, n) && n <= RANGE % bound + 1
  {
    var n := AcceptanceIsNear(state, bound);
  }

  /** The number of draws one call takes. */
  ghost function DrawsTaken(state: nat, bound: nat): (n: nat)
    requires ValidBound(bound)
    ensures IsFirstAccepted(state, bound, n) && n <= RANGE % bound + 1
  {
    AcceptanceExists(state, bound);
    var n: nat :| IsFirstAccepted(state, bound, n) && n <= RANGE % bound + 1;
    n
  }

  ghost function RandValue(state: nat, bound: nat): (r: nat)
    requires ValidBound(bound)
    ensures r < bound
  {
    Output(state, DrawsTaken(state, bound)) % bound
  }

  ghost function RandState(state: nat, bound: nat): nat
    requires ValidBound(bound)
  {
    StateAt(state, DrawsTaken(state, bound))
  }

  class Generator {
    var state: nat

    constructor (seed: nat)
      ensures state == Mask(seed)
    {
      state := Mask(seed);
    }

    method NextU64() returns (v: nat)
      modifies this
      ensures state == StateAt(old(state), 1) && v == Output(old(state), 1)
    {
      state := Mask(state + GAMMA);
      v := Mix(state);
    }

    /** None models the ValueError for a bound outside [1, 2^64]. */
    method RandBelow(bound: int) returns (r: Option<nat>)
      modifies this
      ensures !ValidBound(bound) ==> r == None && state == old(state)
      ensures ValidBound(bound) ==>
                r == Some(RandValue(old(state), bound)) && state == RandState(old(state), bound)
    {
      if !ValidBound(bound) {
        return None;
      }
      var cutoff := RANGE - RANGE % bound;
      ghost var draws := 0;
      RemainderBelowHalf(bound);
      StateAtZero(state);
      while true
        invariant 0 <= draws <= RANGE % bound
        invariant state == (if draws == 0 then old(state) else StateAt(old(state), draws))
        invariant forall i :: 1 <= i <= draws ==> Output(old(state), i) >= cutoff
        decreases RANGE % bound - draws
      {
        StateAtAdds(old(state), draws, 1);
        var value := NextU64();
        draws := draws + 1;
        if value < cutoff {
          FirstAcceptedIsUnique(old(state), bound, draws, DrawsTaken(old(state), bound));
          return Some(value % bound);
        }
        RejectedDrawsAreFew(old(state), bound, draws);
      }
    }
  }

  lemma StateAtZero(state: nat)
    ensures StateAt(StateAt(state, 0), 1) == StateAt(state, 1)
  {
    StateAtAdds(state, 0, 1);
  }

  lemma FirstAcceptedIsUnique(state: nat, bound: nat, m: nat, n: nat)
    requires ValidBound(bound) && IsFirstAccepted(state, bound, m) && IsFirstAccepted(state, bound, n)
    ensures m == n
  {
  }

  // ----- no residue is favoured

  /** The draws of one full period whose value is accepted and reduces to `r`. */
  ghost function AcceptedDraws(state: nat, bound: nat, r: nat): set<nat>
    requires ValidBound(bound)
  {
    set i: nat | i < RANGE && Output(state, i) < Cutoff(bound) && Output(state, i) % bound == r
  }

  lemma DivideMultiple(bound: nat, q: nat, r: nat)
    requires r < bound
    ensures (r + q * bound) / bound == q && (r + q * bound) % bound == r
  {
    var v := r + q * bound;
    var d := v / bound - q;
    assert v == bound * (v / bound) + v % bound;
    assert d * bound == r - v % bound;
    assert d >= 1 ==> d * bound >= bound;
    assert d <= -1 ==> (-d) * bound >= bound;
  }

  /** The numbers r, r + bound, ..., r + (n - 1) * bound. */
  ghost function Residues(bound: nat, r: nat, n: nat): set<nat> {
    if n == 0 then {} else Residues(bound, r, n - 1) + {r + (n - 1) * bound}
  }

  lemma {:induction false} ResiduesMembers(bound: nat, r: nat, n: nat, v: nat)
    requires r < bound
    ensures v in Residues(bound, r, n) <==> v % bound == r && v / bound < n
  {
    if n > 0 {
      ResiduesMembers(bound, r, n - 1, v);
      DivideMultiple(bound, n - 1, r);
      assert v == v / bound * bound + v % bound;
      assert v / bound == n - 1 ==> v / bound * bound == (n - 1) * bound;
    }
  }

  lemma {:induction false} ResiduesSize(bound: nat, r: nat, n: nat)
    requires r < bound
    ensures |Residues(bound, r, n)| == n
  {
    if n > 0 {
      ResiduesSize(bound, r, n - 1);
      ResidueIsNew(bound, r, n - 1);
    }
  }

  lemma ResidueIsNew(bound: nat, r: nat, n: nat)
    requires r < bound
    ensures r + n * bound !in Residues(bound, r, n)
  {
    DivideMultiple(bound, n, r);
    ResiduesMembers(bound, r, n, r + n * bound);
  }

  lemma BelowCutoff(bound: nat, v: nat)
    requires ValidBound(bound)
    ensures v < Cutoff(bound) <==> v / bound < Cutoff(bound) / bound
  {
    var k := RANGE / bound;
    assert Cutoff(bound) == 0 + k * bound;
    DivideMultiple(bound, k, 0);
    var q := v / bound;
    assert v == q * bound + v % bound;
    if q < k {
      assert (q + 1) * bound <= k * bound;
    } else {
      assert q * bound >= k * bound;
    }
  }

  /** A bijection `f` of the numbers below `size`, with inverse `g`, preserves counts. */
  lemma {:induction false} CountPreimages(f: nat -> nat, g: nat -> nat, size: nat, values: set<nat>,
                                          positions: set<nat>)
    requires forall v :: v in values ==> v < size && g(v) < size && f(g(v)) == v
    requires forall i: nat :: i < size ==> g(f(i)) == i
    requires forall i: nat :: i in positions <==> i < size && f(i) in values
    ensures |positions| == |values|
    decreases values
  {
    if values == {} {
      assert positions == {};
    } else {
      var v :| v in values;
      CountPreimages(f, g, size, values - {v}, positions - {g(v)});
    }
  }

  lemma ResiduesAreOutputs(state: nat, bound: nat, r: nat, v: nat)
    requires ValidBound(bound) && r < bound && v in Residues(bound, r, Cutoff(bound) / bound)
    ensures v < RANGE && DrawOf(state, v) < RANGE && Output(state, DrawOf(state, v)) == v
  {
    assert v < Cutoff(bound) by {
      ResiduesMembers(bound, r, Cutoff(bound) / bound, v);
      BelowCutoff(bound, v);
    }
    OutputsAreBijective(state, v, 0);
  }

  lemma AcceptedIffResidue(bound: nat, r: nat, v: nat)
    requires ValidBound(bound) && r < bound
    ensures v < Cutoff(bound) && v % bound == r <==> v in Residues(bound, r, Cutoff(bound) / bound)
  {
    ResiduesMembers(bound, r, Cutoff(bound) / bound, v);
    BelowCutoff(bound, v);
  }

  lemma DrawOfOutput(state: nat, i: nat)
    requires i < RANGE
    ensures Output(state, i) < RANGE && DrawOf(state, Output(state, i)) == i
  {
    OutputBound(state, i);
    OutputsAreBijective(state, Output(state, i), i);
  }

  /** Over one full period every residue is produced by exactly the same number of accepted draws. */
  lemma RandBelowIsUnbiased(state: nat, bound: nat, r: nat)
    requires ValidBound(bound) && r < bound
    ensures |AcceptedDraws(state, bound, r)| == Cutoff(bound) / bound
  {
    var n := Cutoff(bound) / bound;
    var values, draws := Residues(bound, r, n), AcceptedDraws(state, bound, r);
    var f := (i: nat) => Output(state, i);
    var g := (v: nat) => if v < RANGE then DrawOf(state, v) else 0;
    forall v | v in values
      ensures v < RANGE && g(v) < RANGE && f(g(v)) == v
    {
      ResiduesAreOutputs(state, bound, r, v);
    }
    forall i: nat | i < RANGE
      ensures g(f(i)) == i
    {
      DrawOfOutput(state, i);
    }
    forall i: nat
      ensures i in draws <==> i < RANGE && f(i) in values
    {
      AcceptedIffResidue(bound, r, Output(state, i));
    }
    CountPreimages(f, g, RANGE, values, draws);
    ResiduesSize(bound, r, n);
  }
}
