/**
 * The reference recursion `proceed_ssrg_recursion` of `src/run.py`, its
 * agreement with the closed-form matrix power and with step-by-step iteration,
 * and the transition matrix the driver in `src/run.py` hard-codes.
 */
module RunSsrg {
  import opened Wrappers
  import opened Gf2Matrix
  import opened PrnBitstreams

  /**
   * `proceed_ssrg_recursion`: x mod 2 for n = 0, (m x) mod 2 for n = 1, and
   * (m times the result for n - 1) mod 2 above that.
   */
  function Recursion(n: nat, x: Vector, m: Matrix): (r: Vector)
    requires IsSquare(m, |x|)
    ensures |r| == |x| && IsBits(r)
  {
    if n == 0 then Mod2(x)
    else if n == 1 then Mod2(MatVec(m, x))
    else Mod2(MatVec(m, Recursion(n - 1, x, m)))
  }

  /**
   * The recursion is one step of the matrix applied to the result for n - 1,
   * for every n >= 1 (for n = 1 because reducing x first changes nothing).
   */
  lemma RecursionStep(n: nat, x: Vector, m: Matrix)
    requires IsSquare(m, |x|) && n >= 1
    ensures Recursion(n, x, m) == OneStep(Recursion(n - 1, x, m), m)
  {
    if n == 1 {
      OneStepMod2(x, m);
    }
  }

  /** The recursion and the closed-form power `proceed_ssrg_np_pow` agree for every n. */
  lemma {:induction false} RecursionIsPowStep(n: nat, x: Vector, m: Matrix)
    requires IsSquare(m, |x|)
    ensures Recursion(n, x, m) == PowStep(n, x, m)
  {
    if n == 0 {
      MatVecIdentity(x);
    } else {
      RecursionIsPowStep(n - 1, x, m);
      RecursionStep(n, x, m);
      PowStepSucc(n - 1, x, m);
    }
  }

  /**
   * The recursion for n = 1 is `proceed_ssrg_onestep`, and for every n it is n
   * single steps, from x itself when x is a bit vector or n >= 1.
   */
  lemma RecursionIsIteration(n: nat, x: Vector, m: Matrix)
    requires IsSquare(m, |x|)
    ensures n == 1 ==> Recursion(n, x, m) == OneStep(x, m)
    ensures Recursion(n, x, m) == StepN(n, Mod2(x), m)
    ensures n >= 1 || IsBits(x) ==> Recursion(n, x, m) == StepN(n, x, m)
  {
    RecursionIsPowStep(n, x, m);
    PowStepIsIteration(n, x, m);
    if n >= 1 || IsBits(x) {
      PowStepIsStepN(n, x, m);
    }
  }

  /** The matrix `src/run.py` writes out by hand, 1 0 0 1; 1 0 0 0; 0 1 0 0; 0 0 1 0. */
  const DriverMatrix: Matrix := [[1, 0, 0, 1], [1, 0, 0, 0], [0, 1, 0, 0], [0, 0, 1, 0]]

  /** The driver's matrix is the one `build_srm` builds from the feedback vector [1, 0, 0, 1]. */
  lemma DriverMatrixIsBuildSrm()
    ensures BuildSrm([1, 0, 0, 1]) == Success(DriverMatrix)
  {
    var m := BuildSrm([1, 0, 0, 1]).value;
    assert |m| == 4 && m[0] == [1, 0, 0, 1];
    assert m[1] == Unit(4, 0) == [1, 0, 0, 0];
    assert m[2] == Unit(4, 1) == [0, 1, 0, 0];
    assert m[3] == Unit(4, 2) == [0, 0, 1, 0];
    assert m == DriverMatrix;
  }
}
