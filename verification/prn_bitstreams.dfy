/**
 * The shift-register sequence engine of `src/siggens/PRN_bitstreams.py`: the
 * transition matrix of a simple shift-register generator (SSRG), its one-step
 * and n-step advance modulo 2, the hand-written register loop `ssrg`, and the
 * GPS C/A Gold-code generator `gold_seq`.
 */
module PrnBitstreams {
  import opened Wrappers
  import opened NumpyOps
  import opened Gf2Matrix

  datatype SrmError = EmptyFeedback

  /** The exceptions numpy and Python raise inside the generator loops. */
  datatype GenError =
    | NegativeLength   // np.zeros with a negative size
    | ShapeMismatch    // np.dot on vectors of different lengths
    | EmptyRegister    // reading the last cell of an empty register
    | TapOutOfRange    // a G2 selector index outside the register

  // ---------------------------------------------------------------- the transition matrix

  /**
   * `build_srm`: an L x L matrix whose row 0 is the feedback vector and whose
   * row i (1 <= i < L) is the identity row i - 1, i.e. "shift down, inject
   * feedback at the top". An empty feedback vector makes numpy fail.
   */
  function BuildSrm(fb: Vector): (r: Result<Matrix, SrmError>)
    ensures r.Success? <==> |fb| >= 1
    ensures r.Success? ==> IsSquare(r.value, |fb|) && r.value[0] == fb
    ensures r.Success? ==> forall i, j :: 1 <= i < |fb| && 0 <= j < |fb| ==>
              r.value[i][j] == (if j == i - 1 then 1 else 0)
  {
    if |fb| == 0 then Failure(EmptyFeedback)
    else Success(seq(|fb|, i requires 0 <= i < |fb| => if i == 0 then fb else Unit(|fb|, i - 1)))
  }

  /** `proceed_ssrg_onestep`: the next register state, (m * x) mod 2. */
  function OneStep(x: Vector, m: Matrix): (r: Vector)
    requires IsSquare(m, |x|)
    ensures |r| == |x| && IsBits(r)
  {
    Mod2(MatVec(m, x))
  }

  /** `proceed_ssrg_np_pow`: the state n steps ahead in closed form, (m^n * x) mod 2. */
  function PowStep(n: nat, x: Vector, m: Matrix): (r: Vector)
    requires IsSquare(m, |x|)
    ensures |r| == |x| && IsBits(r)
  {
    Mod2(MatVec(MatPow(m, n), x))
  }

  /** `OneStep` applied n times to x (zero times gives x itself). */
  function StepN(n: nat, x: Vector, m: Matrix): (r: Vector)
    requires IsSquare(m, |x|)
    ensures |r| == |x|
  {
    if n == 0 then x else OneStep(StepN(n - 1, x, m), m)
  }

  /** One step with the matrix of `build_srm`: feedback into cell 0, every other cell moves down. */
  lemma SrmStep(fb: Vector, s: Vector)
    requires |s| == |fb| >= 1
    ensures OneStep(s, BuildSrm(fb).value) == [Dot(fb, s) % 2] + Mod2(s[..|s| - 1])
  {
    var m := BuildSrm(fb).value;
    var r := OneStep(s, m);
    var q := [Dot(fb, s) % 2] + Mod2(s[..|s| - 1]);
    assert r[0] == q[0];
    forall i | 1 <= i < |s| ensures r[i] == q[i] {
      assert m[i] == Unit(|s|, i - 1);
      DotUnit(|s|, i - 1, s);
      assert q[i] == s[..|s| - 1][i - 1] % 2;
    }
    assert r == q;
  }

  /** Raising the power by one is one more step: (m^(n+1) x) mod 2 == (m ((m^n x) mod 2)) mod 2. */
  lemma PowStepSucc(n: nat, x: Vector, m: Matrix)
    requires IsSquare(m, |x|)
    ensures PowStep(n + 1, x, m) == OneStep(PowStep(n, x, m), m)
  {
    var p := MatPow(m, n);
    MatVecMul(m, p, x);
    MatVecMod2(m, MatVec(p, x));
  }

  /** Stepping a vector or its reduction modulo 2 gives the same next state. */
  lemma OneStepMod2(x: Vector, m: Matrix)
    requires IsSquare(m, |x|)
    ensures OneStep(Mod2(x), m) == OneStep(x, m)
  {
    MatVecMod2(m, x);
  }

  /** The closed-form advance by zero steps is the start state reduced modulo 2. */
  lemma PowStepZero(x: Vector, m: Matrix)
    requires IsSquare(m, |x|)
    ensures PowStep(0, x, m) == Mod2(x)
  {
    MatVecIdentity(x);
  }

  /**
   * The equivalence law of the generator: the closed-form advance by m^n equals
   * n single steps from the reduced state.
   */
  lemma {:induction false} PowStepIsIteration(n: nat, x: Vector, m: Matrix)
    requires IsSquare(m, |x|)
    ensures PowStep(n, x, m) == StepN(n, Mod2(x), m)
  {
    if n == 0 {
      PowStepZero(x, m);
    } else {
      PowStepIsIteration(n - 1, x, m);
      PowStepSucc(n - 1, x, m);
    }
  }

  /** The closed-form advance is n single steps from x itself once n >= 1 or x is a bit vector. */
  lemma PowStepIsStepN(n: nat, x: Vector, m: Matrix)
    requires IsSquare(m, |x|)
    requires n >= 1 || IsBits(x)
    ensures PowStep(n, x, m) == StepN(n, x, m)
  {
    PowStepIsIteration(n, x, m);
    if n >= 1 {
      StepNMod2(n, x, m);
    } else {
      Mod2OfBits(x);
    }
  }

  /** After at least one step the reduction of the start state no longer matters. */
  lemma {:induction false} StepNMod2(n: nat, x: Vector, m: Matrix)
    requires IsSquare(m, |x|) && n >= 1
    ensures StepN(n, Mod2(x), m) == StepN(n, x, m)
  {
    if n == 1 {
      OneStepMod2(x, m);
    } else {
      StepNMod2(n - 1, x, m);
    }
  }

  // ---------------------------------------------------------------- the register loop `ssrg`

  /**
   * One pass of the `ssrg` loop body on register contents: every cell moves one
   * place towards the end and cell 0 takes the feedback bit.
   */
  function ShiftIn(s: Vector, fb: Vector): (r: Vector)
    requires |s| == |fb| >= 1
    ensures |r| == |s|
    ensures r[0] == Dot(s, fb) % 2
    ensures forall k :: 1 <= k < |s| ==> r[k] == s[k - 1]
  {
    [Dot(s, fb) % 2] + s[..|s| - 1]
  }

  /**
   * The register update of the `ssrg` and `gold_seq` loops: compute the feedback
   * bit, roll into a fresh array, then overwrite its cell 0. The old array is
   * not written.
   */
  method ShiftRegister(reg: array<int>, fb: Vector) returns (next: array<int>)
    requires reg.Length == |fb| >= 1
    ensures fresh(next)
    ensures next[..] == ShiftIn(reg[..], fb)
  {
    var in1 := Dot(reg[..], fb) % 2;
    next := RollArray(reg, 1);
    RollRight(reg[..]);
    next[0] := in1;
  }

  /** The register contents after k passes of the loop body, starting from `init`. */
  function RegisterAfter(init: Vector, fb: Vector, k: nat): (r: Vector)
    requires |init| == |fb| >= 1
    ensures |r| == |init|
    ensures IsBits(init) ==> IsBits(r)
  {
    if k == 0 then init else ShiftIn(RegisterAfter(init, fb, k - 1), fb)
  }

  /** On a bit register the loop body is exactly the matrix step of `build_srm`. */
  lemma ShiftInIsMatrixStep(s: Vector, fb: Vector)
    requires |s| == |fb| >= 1 && IsBits(s)
    ensures ShiftIn(s, fb) == OneStep(s, BuildSrm(fb).value)
  {
    SrmStep(fb, s);
    DotComm(fb, s);
    var r := ShiftIn(s, fb);
    var q := [Dot(fb, s) % 2] + Mod2(s[..|s| - 1]);
    forall k | 1 <= k < |s| ensures r[k] == q[k] {
      assert s[k - 1] == 0 || s[k - 1] == 1;
    }
  }

  /** Both formulations agree: k passes of the hand-written loop reach the state (M^k init) mod 2. */
  lemma {:induction false} RegisterAfterIsPowStep(init: Vector, fb: Vector, k: nat)
    requires |init| == |fb| >= 1 && IsBits(init)
    ensures RegisterAfter(init, fb, k) == PowStep(k, init, BuildSrm(fb).value)
  {
    var m := BuildSrm(fb).value;
    if k == 0 {
      PowStepZero(init, m);
      Mod2OfBits(init);
    } else {
      RegisterAfterIsPowStep(init, fb, k - 1);
      ShiftInIsMatrixStep(RegisterAfter(init, fb, k - 1), fb);
      PowStepSucc(k - 1, init, m);
    }
  }

  /**
   * From any integer start register the loop agrees with the closed form up to
   * parity: cells the loop has only shifted keep their unreduced values, but
   * reduced modulo 2, k passes reach (M^k init) mod 2.
   */
  lemma {:induction false} RegisterAfterMod2IsPowStep(init: Vector, fb: Vector, k: nat)
    requires |init| == |fb| >= 1
    ensures Mod2(RegisterAfter(init, fb, k)) == PowStep(k, init, BuildSrm(fb).value)
  {
    var m := BuildSrm(fb).value;
    if k == 0 {
      PowStepZero(init, m);
    } else {
      RegisterAfterMod2IsPowStep(init, fb, k - 1);
      var s := RegisterAfter(init, fb, k - 1);
      PowStepSucc(k - 1, init, m);
      OneStepMod2(s, m);
      SrmStep(fb, s);
      DotComm(fb, s);
      var r := Mod2(ShiftIn(s, fb));
      var q := [Dot(fb, s) % 2] + Mod2(s[..|s| - 1]);
      forall j | 0 <= j < |s| ensures r[j] == q[j] {
        if j > 0 {
          assert q[j] == s[..|s| - 1][j - 1] % 2;
        }
      }
    }
  }

  const DefaultSsrgBits := 7

  /**
   * `ssrg`: emits the last register cell before each of n_bits - 1 loop passes
   * into a zero-filled output of n_bits entries, so the final entry stays false.
   * The caller's `init` is only read: each pass rolls into a fresh array before
   * cell 0 is written.
   */
  method Ssrg(init: array<int>, fb: Vector, nBits: Option<int>) returns (r: Result<seq<bool>, GenError>)
    ensures var n := GetOr(nBits, DefaultSsrgBits);
      && (n < 0 ==> r == Failure(NegativeLength))
      && (n >= 2 && init.Length != |fb| ==> r == Failure(ShapeMismatch))
      && (n >= 2 && init.Length == |fb| == 0 ==> r == Failure(EmptyRegister))
      && (r.Success? <==> 0 <= n <= 1 || (n >= 2 && init.Length == |fb| >= 1))
    ensures r.Success? ==> |r.value| == GetOr(nBits, DefaultSsrgBits)
    ensures r.Success? && |r.value| >= 1 ==> !r.value[|r.value| - 1]
    ensures r.Success? ==> forall i :: 0 <= i < |r.value| - 1 ==>
              init.Length == |fb| >= 1 &&
              r.value[i] == (RegisterAfter(init[..], fb, i)[init.Length - 1] != 0)
  {
    var n := GetOr(nBits, DefaultSsrgBits);
    if n < 0 {
      return Failure(NegativeLength);
    }
    if n >= 2 && init.Length != |fb| {
      return Failure(ShapeMismatch);
    }
    if n >= 2 && init.Length == 0 {
      return Failure(EmptyRegister);
    }
    var x := RunRegister(init, fb, n);
    if n >= 2 {
      EmittedCells(init[..], fb, n - 1);
    }
    r := Success(AsBool(x[..]));
  }

  /** The cells the first k passes of `ssrg` record: the last cell of each state before it is shifted. */
  function Emitted(init: Vector, fb: Vector, k: nat): (e: seq<int>)
    requires |init| == |fb| >= 1
    ensures |e| == k
  {
    if k == 0 then [] else Emitted(init, fb, k - 1) + [RegisterAfter(init, fb, k - 1)[|init| - 1]]
  }

  /** Entry j of the recorded cells is the last cell of the state after j shifts. */
  lemma {:induction false} EmittedCells(init: Vector, fb: Vector, k: nat)
    requires |init| == |fb| >= 1
    ensures forall j :: 0 <= j < k ==> Emitted(init, fb, k)[j] == RegisterAfter(init, fb, j)[|init| - 1]
  {
    if k > 0 {
      EmittedCells(init, fb, k - 1);
    }
  }

  /**
   * The loop of `ssrg`: before pass i the register holds its state after i
   * shifts; the pass stores the last cell into x[i], then shifts the register.
   */
  method RunRegister(init: array<int>, fb: Vector, n: nat) returns (x: array<int>)
    requires n >= 2 ==> init.Length == |fb| >= 1
    ensures fresh(x) && x.Length == n
    ensures n >= 1 ==> x[n - 1] == 0
    ensures n >= 2 ==> x[..n - 1] == Emitted(init[..], fb, n - 1)
  {
    x := new int[n](_ => 0);
    if n <= 1 {
      return;
    }
    ghost var s0 := init[..];
    var reg := init;
    var nob := init.Length;
    var i := 0;
    while i < n - 1
      invariant 0 <= i <= n - 1
      invariant reg.Length == nob && x != reg
      invariant reg[..] == RegisterAfter(s0, fb, i)
      invariant x[..i] == Emitted(s0, fb, i)
      invariant x[n - 1] == 0
    {
      x[i] := reg[nob - 1];
      assert x[..i + 1] == x[..i] + [x[i]];
      reg := ShiftRegister(reg, fb);
      i := i + 1;
    }
  }

  /** `astype(bool)`: every non-zero entry becomes true. */
  function AsBool(v: Vector): (b: seq<bool>)
    ensures |b| == |v| && forall j :: 0 <= j < |v| ==> (b[j] <==> v[j] != 0)
  {
    seq(|v|, j requires 0 <= j < |v| => v[j] != 0)
  }

  // ---------------------------------------------------------------- the Gold-code generator `gold_seq`

  /** G1 = 1 + X^3 + X^10: cells 3 and 10 (1-based) feed back. */
  const G1Feedback: Vector := [0, 0, 1, 0, 0, 0, 0, 0, 0, 1]
  /** G2 = 1 + X^2 + X^3 + X^6 + X^8 + X^9 + X^10. */
  const G2Feedback: Vector := [0, 1, 1, 0, 0, 1, 0, 1, 1, 1]
  /** Both registers are seeded with all ones on every call. */
  const AllOnes: Vector := [1, 1, 1, 1, 1, 1, 1, 1, 1, 1]

  const DefaultGoldBits := 1023
  const DefaultGoldPeriods := 1

  /** The 1-based positions of the feedback taps. */
  function Taps(fb: Vector): (t: set<nat>)
    ensures forall p :: p in t <==> 1 <= p <= |fb| && fb[p - 1] != 0
  {
    set j | 0 <= j < |fb| && fb[j] != 0 :: j + 1
  }

  /** The two feedback vectors are the G1 and G2 generator polynomials of the GPS C/A code. */
  lemma GpsGeneratorTaps()
    ensures Taps(G1Feedback) == {3, 10}
    ensures Taps(G2Feedback) == {2, 3, 6, 8, 9, 10}
  {
    var t1, t2 := Taps(G1Feedback), Taps(G2Feedback);
    forall p ensures p in t1 <==> p in {3, 10} {
      if p in t1 {
        assert 1 <= p <= 10 && G1Feedback[p - 1] != 0;
      }
    }
    forall p ensures p in t2 <==> p in {2, 3, 6, 8, 9, 10} {
      if p in t2 {
        assert 1 <= p <= 10 && G2Feedback[p - 1] != 0;
      }
    }
  }

  /** A G2 selector `x` reads `shft_reg_2[x - 1]`, which Python allows for -9 <= x <= 10. */
  predicate TapInRange(x: int)
  {
    InPyRange(x - 1, 10)
  }

  /** The number of chips, `no_periods * no_bits`. */
  function GoldLength(noBits: Option<int>, noPeriods: Option<int>): int
  {
    GetOr(noPeriods, DefaultGoldPeriods) * GetOr(noBits, DefaultGoldBits)
  }

  /** The chip read from the two register states: G1's last cell plus the two selected G2 cells, modulo 2. */
  function ChipOf(r1: Vector, r2: Vector, x1: int, x2: int): (c: int)
    requires |r1| == |r2| == 10 && TapInRange(x1) && TapInRange(x2)
    requires IsBits(r1) && IsBits(r2)
    ensures (c == 1) == ((r1[9] == 1) != ((r2[PyIndex(x1 - 1, 10)] == 1) != (r2[PyIndex(x2 - 1, 10)] == 1)))
    ensures c == 0 || c == 1
  {
    (r1[9] + (r2[PyIndex(x1 - 1, 10)] + r2[PyIndex(x2 - 1, 10)]) % 2) % 2
  }

  /** Two 10-cell registers seeded with a bit vector, and G2 selectors Python can index with. */
  ghost predicate PairSetup(seed: Vector, fb1: Vector, fb2: Vector, x1: int, x2: int)
  {
    |seed| == |fb1| == |fb2| == 10 && IsBits(seed) && TapInRange(x1) && TapInRange(x2)
  }

  /** Chip i when two 10-cell registers both start from `seed` and feed back through fb1 and fb2. */
  function ChipAfter(seed: Vector, fb1: Vector, fb2: Vector, x1: int, x2: int, i: nat): (c: int)
    requires PairSetup(seed, fb1, fb2, x1, x2)
    ensures c == 0 || c == 1
  {
    ChipOf(RegisterAfter(seed, fb1, i), RegisterAfter(seed, fb2, i), x1, x2)
  }

  /** Chip i of the Gold code selected by the G2 taps x1 and x2. */
  function GoldChip(x1: int, x2: int, i: nat): (c: int)
    requires TapInRange(x1) && TapInRange(x2)
    ensures c == 0 || c == 1
  {
    AllOnesAreBits();
    ChipAfter(AllOnes, G1Feedback, G2Feedback, x1, x2, i)
  }

  lemma AllOnesAreBits()
    ensures |AllOnes| == |G1Feedback| == |G2Feedback| == 10 && IsBits(AllOnes)
  {
  }

  /**
   * Chip i is the exclusive or of three cells of the states the two registers
   * reach after i steps, which are the closed-form advances (G^i * ones) mod 2.
   */
  lemma GoldChipIsXor(x1: int, x2: int, i: nat)
    requires TapInRange(x1) && TapInRange(x2)
    ensures var p1 := PowStep(i, AllOnes, BuildSrm(G1Feedback).value);
            var p2 := PowStep(i, AllOnes, BuildSrm(G2Feedback).value);
            (GoldChip(x1, x2, i) == 1) ==
              ((p1[9] == 1) != ((p2[PyIndex(x1 - 1, 10)] == 1) != (p2[PyIndex(x2 - 1, 10)] == 1)))
  {
    AllOnesAreBits();
    RegisterAfterIsPowStep(AllOnes, G1Feedback, i);
    RegisterAfterIsPowStep(AllOnes, G2Feedback, i);
  }

  /** The chip read of one `gold_seq` pass: g1 is G1's last cell, g2 the sum of the two selected G2 cells. */
  method ReadChip(reg1: array<int>, reg2: array<int>, x1: int, x2: int) returns (c: int)
    requires reg1.Length == reg2.Length == 10 && IsBits(reg1[..]) && IsBits(reg2[..])
    requires TapInRange(x1) && TapInRange(x2)
    ensures c == ChipOf(reg1[..], reg2[..], x1, x2)
  {
    var g1 := reg1[9];
    var g2 := (reg2[PyIndex(x1 - 1, 10)] + reg2[PyIndex(x2 - 1, 10)]) % 2;
    c := (g1 + g2) % 2;
  }

  /** `np.array(seed)`: a fresh register holding the seed. */
  method NewRegister(seed: Vector) returns (reg: array<int>)
    ensures fresh(reg) && reg[..] == seed
  {
    reg := new int[|seed|](k requires 0 <= k < |seed| => seed[k]);
  }

  /** One pass of the `gold_seq` loop on the registers' states after i shifts: read chip i, then shift both. */
  method GoldPass(seed: Vector, fb1: Vector, fb2: Vector, x1: int, x2: int, ghost i: nat,
                  reg1: array<int>, reg2: array<int>)
    returns (c: int, next1: array<int>, next2: array<int>)
    requires PairSetup(seed, fb1, fb2, x1, x2)
    requires reg1[..] == RegisterAfter(seed, fb1, i) && reg2[..] == RegisterAfter(seed, fb2, i)
    ensures c == ChipAfter(seed, fb1, fb2, x1, x2, i)
    ensures fresh(next1) && next1[..] == RegisterAfter(seed, fb1, i + 1)
    ensures fresh(next2) && next2[..] == RegisterAfter(seed, fb2, i + 1)
  {
    c := ReadChip(reg1, reg2, x1, x2);
    next1 := ShiftRegister(reg1, fb1);
    next2 := ShiftRegister(reg2, fb2);
  }

  /**
   * The loop of `gold_seq`: before pass i both registers hold their state after
   * i shifts; the pass records the chip, then shifts each register once.
   */
  method RunRegisterPair(seed: Vector, fb1: Vector, fb2: Vector, x1: int, x2: int, total: nat)
    returns (x: array<int>)
    requires PairSetup(seed, fb1, fb2, x1, x2)
    ensures fresh(x) && x.Length == total
    ensures forall j :: 0 <= j < total ==> x[j] == ChipAfter(seed, fb1, fb2, x1, x2, j)
  {
    x := new int[total](_ => 0);
    var reg1 := NewRegister(seed);
    var reg2 := NewRegister(seed);
    var i := 0;
    while i < total
      invariant 0 <= i <= total
      invariant x != reg1 && x != reg2
      invariant reg1[..] == RegisterAfter(seed, fb1, i)
      invariant reg2[..] == RegisterAfter(seed, fb2, i)
      invariant forall j :: 0 <= j < i ==> x[j] == ChipAfter(seed, fb1, fb2, x1, x2, j)
    {
      var c, next1, next2 := GoldPass(seed, fb1, fb2, x1, x2, i, reg1, reg2);
      x[i] := c;
      reg1, reg2 := next1, next2;
      i := i + 1;
    }
  }

  /**
   * `gold_seq`: no_periods * no_bits chips of the Gold code selected by the G2
   * taps x1 and x2, from two registers reset to all ones on every call.
   */
  method GoldSeq(x1: int, x2: int, noBits: Option<int>, noPeriods: Option<int>)
    returns (r: Result<seq<bool>, GenError>)
    ensures var total := GoldLength(noBits, noPeriods);
      && (total < 0 ==> r == Failure(NegativeLength))
      && (total > 0 && !(TapInRange(x1) && TapInRange(x2)) ==> r == Failure(TapOutOfRange))
      && (r.Success? <==> total == 0 || (total > 0 && TapInRange(x1) && TapInRange(x2)))
    ensures r.Success? ==> |r.value| == GoldLength(noBits, noPeriods)
    ensures r.Success? ==> forall i :: 0 <= i < |r.value| ==>
              TapInRange(x1) && TapInRange(x2) && r.value[i] == (GoldChip(x1, x2, i) == 1)
  {
    var total := GoldLength(noBits, noPeriods);
    if total < 0 {
      return Failure(NegativeLength);
    }
    if total > 0 && !(TapInRange(x1) && TapInRange(x2)) {
      return Failure(TapOutOfRange);
    }
    if total == 0 {
      return Success([]);
    }
    AllOnesAreBits();
    var x := RunRegisterPair(AllOnes, G1Feedback, G2Feedback, x1, x2, total);
    r := Success(AsBool(x[..]));
  }
}
