/**
 * The stand-alone copy of `ssrg` in `src/siggens/ssrg_script.py`. It differs
 * from the package version in one place: the register is rolled by -1, not +1,
 * before cell 0 receives the feedback bit. The update is still linear, and
 * for registers of one or two cells it is the shift of `build_srm`; from three
 * cells on the matrix differs.
 */
module SsrgScript {
  import opened Wrappers
  import opened NumpyOps
  import opened Gf2Matrix
  import opened PrnBitstreams

  /**
   * One pass of the script's loop body on register contents: every cell moves
   * one place towards the front, the old cell 0 wraps to the end, then cell 0
   * is overwritten by the feedback bit.
   */
  function ScriptShiftIn(s: Vector, fb: Vector): (r: Vector)
    requires |s| == |fb| >= 1
    ensures |r| == |s|
    ensures r[0] == Dot(s, fb) % 2
    ensures forall k :: 1 <= k < |s| - 1 ==> r[k] == s[k + 1]
    ensures |s| >= 2 ==> r[|s| - 1] == s[0]
  {
    (s[1..] + [s[0]])[0 := Dot(s, fb) % 2]
  }

  /** The register update of the script: roll by -1 into a fresh array, then overwrite its cell 0. */
  method ScriptShiftRegister(reg: array<int>, fb: Vector) returns (next: array<int>)
    requires reg.Length == |fb| >= 1
    ensures fresh(next)
    ensures next[..] == ScriptShiftIn(reg[..], fb)
  {
    var in1 := Dot(reg[..], fb) % 2;
    next := RollArray(reg, -1);
    RollLeft(reg[..]);
    next[0] := in1;
  }

  /** The register contents after k passes of the script's loop body. */
  function ScriptRegisterAfter(init: Vector, fb: Vector, k: nat): (r: Vector)
    requires |init| == |fb| >= 1
    ensures |r| == |init|
  {
    if k == 0 then init else ScriptShiftIn(ScriptRegisterAfter(init, fb, k - 1), fb)
  }

  /** The register keeps its length and, started from bits, holds only bits. */
  lemma {:induction false} ScriptRegisterStaysBits(init: Vector, fb: Vector, k: nat)
    requires |init| == |fb| >= 1 && IsBits(init)
    ensures IsBits(ScriptRegisterAfter(init, fb, k))
  {
    if k > 0 {
      ScriptRegisterStaysBits(init, fb, k - 1);
      var s := ScriptRegisterAfter(init, fb, k - 1);
      var r := ScriptShiftIn(s, fb);
      forall j | 0 <= j < |r| ensures r[j] == 0 || r[j] == 1 {
        if j > 0 {
          assert r[j] == (s[1..] + [s[0]])[j];
        }
      }
    }
  }

  /**
   * The matrix of the script's update: row 0 is the feedback vector, row k picks
   * cell k + 1, and the last row picks cell 0.
   */
  function ScriptMatrix(fb: Vector): (m: Matrix)
    requires |fb| >= 1
    ensures IsSquare(m, |fb|) && m[0] == fb
  {
    seq(|fb|, k requires 0 <= k < |fb| =>
      if k == 0 then fb else if k < |fb| - 1 then Unit(|fb|, k + 1) else Unit(|fb|, 0))
  }

  /**
   * The script's matrix is the one `build_srm` builds exactly when the register
   * has at most two cells: from three cells on, row 1 picks cell 2 where
   * `build_srm` picks cell 0.
   */
  lemma ScriptMatrixIsBuildSrmIffShort(fb: Vector)
    requires |fb| >= 1
    ensures ScriptMatrix(fb) == BuildSrm(fb).value <==> |fb| <= 2
  {
    var m, srm := ScriptMatrix(fb), BuildSrm(fb).value;
    if |fb| <= 2 {
      forall k | 0 <= k < |fb| ensures m[k] == srm[k] {
        if k == 1 {
          assert m[k] == Unit(|fb|, 0);
          assert srm[k] == Unit(|fb|, 0);
        }
      }
    } else {
      assert m[1] == Unit(|fb|, 2);
      assert m[1][0] == 0 && srm[1][0] == 1;
    }
  }

  /** On a bit register the script's pass is the matrix step with `ScriptMatrix`. */
  lemma ScriptShiftInIsMatrixStep(s: Vector, fb: Vector)
    requires |s| == |fb| >= 1 && IsBits(s)
    ensures ScriptShiftIn(s, fb) == OneStep(s, ScriptMatrix(fb))
  {
    var m := ScriptMatrix(fb);
    var r, q := ScriptShiftIn(s, fb), OneStep(s, m);
    DotComm(fb, s);
    forall k | 0 <= k < |s| ensures r[k] == q[k] {
      if k > 0 {
        var c := if k < |s| - 1 then k + 1 else 0;
        assert m[k] == Unit(|s|, c);
        DotUnit(|s|, c, s);
        assert s[c] == 0 || s[c] == 1;
      }
    }
  }

  /** The cells the first k passes of the script record: the last cell of each state before its pass. */
  function ScriptEmitted(init: Vector, fb: Vector, k: nat): (e: seq<int>)
    requires |init| == |fb| >= 1
    ensures |e| == k
  {
    if k == 0 then [] else ScriptEmitted(init, fb, k - 1) + [ScriptRegisterAfter(init, fb, k - 1)[|init| - 1]]
  }

  /** Entry j of the recorded cells is the last cell of the state after j passes. */
  lemma {:induction false} ScriptEmittedCells(init: Vector, fb: Vector, k: nat)
    requires |init| == |fb| >= 1
    ensures forall j :: 0 <= j < k ==>
              ScriptEmitted(init, fb, k)[j] == ScriptRegisterAfter(init, fb, j)[|init| - 1]
  {
    if k > 0 {
      ScriptEmittedCells(init, fb, k - 1);
    }
  }

  /** The script's loop: record the last cell, then roll by -1 and overwrite cell 0. */
  method RunScriptRegister(init: array<int>, fb: Vector, n: nat) returns (x: array<int>)
    requires n >= 2 ==> init.Length == |fb| >= 1
    ensures fresh(x) && x.Length == n
    ensures n >= 1 ==> x[n - 1] == 0
    ensures n >= 2 ==> x[..n - 1] == ScriptEmitted(init[..], fb, n - 1)
  {
    x := new int[n](_ => 0);
    if n <= 1 {
      return;
    }
    ghost var s0 := init[..];
    var reg := init;
    var nob := init.Length;
    var i := 0;
    while i < n - 1
      invariant 0 <= i <= n - 1
      invariant reg.Length == nob && x != reg
      invariant reg[..] == ScriptRegisterAfter(s0, fb, i)
      invariant x[..i] == ScriptEmitted(s0, fb, i)
      invariant x[n - 1] == 0
    {
      x[i] := reg[nob - 1];
      assert x[..i + 1] == x[..i] + [x[i]];
      reg := ScriptShiftRegister(reg, fb);
      i := i + 1;
    }
  }

  /**
   * The script's `ssrg`: n_bits values (a required argument) recorded into a
   * zero-filled output; the loop runs n_bits - 1 times, so the last value stays
   * 0. The values are returned as numbers, without conversion to bool.
   */
  method Ssrg(init: array<int>, fb: Vector, nBits: int) returns (r: Result<seq<int>, GenError>)
    ensures nBits < 0 ==> r == Failure(NegativeLength)
    ensures nBits >= 2 && init.Length != |fb| ==> r == Failure(ShapeMismatch)
    ensures nBits >= 2 && init.Length == |fb| == 0 ==> r == Failure(EmptyRegister)
    ensures r.Success? <==> 0 <= nBits <= 1 || (nBits >= 2 && init.Length == |fb| >= 1)
    ensures r.Success? ==> |r.value| == nBits
    ensures r.Success? && nBits >= 1 ==> r.value[nBits - 1] == 0
    ensures r.Success? ==> forall i :: 0 <= i < nBits - 1 ==>
              init.Length == |fb| >= 1 &&
              r.value[i] == ScriptRegisterAfter(init[..], fb, i)[init.Length - 1]
  {
    if nBits < 0 {
      return Failure(NegativeLength);
    }
    if nBits >= 2 && init.Length != |fb| {
      return Failure(ShapeMismatch);
    }
    if nBits >= 2 && init.Length == 0 {
      return Failure(EmptyRegister);
    }
    var x := RunScriptRegister(init, fb, nBits);
    if nBits >= 2 {
      ScriptEmittedCells(init[..], fb, nBits - 1);
    }
    r := Success(x[..]);
  }

  /**
   * The roll(-1) pass is not the shift of `build_srm`: from [1, 0, 0] with
   * feedback [1, 0, 1] the script reaches [1, 0, 1] while the matrix step (and
   * the package's roll(+1) loop) reaches [1, 1, 0], so the second output value
   * is 1 in the script and 0 in the package.
   */
  lemma ScriptDiffersFromShiftRegister()
    ensures ScriptRegisterAfter([1, 0, 0], [1, 0, 1], 1) == [1, 0, 1]
    ensures RegisterAfter([1, 0, 0], [1, 0, 1], 1) == [1, 1, 0]
    ensures OneStep([1, 0, 0], BuildSrm([1, 0, 1]).value) == [1, 1, 0]
    ensures ScriptRegisterAfter([1, 0, 0], [1, 0, 1], 1)[2] != RegisterAfter([1, 0, 0], [1, 0, 1], 1)[2]
  {
    var s: Vector := [1, 0, 0];
    var fb: Vector := [1, 0, 1];
    assert Dot(s, fb) == 1 by {
      assert s[1..] == [0, 0] && fb[1..] == [0, 1];
      assert s[1..][1..] == [0] && fb[1..][1..] == [1];
    }
    assert ScriptShiftIn(s, fb) == [1, 0, 1];
    assert ShiftIn(s, fb) == [1, 1, 0];
    assert IsBits(s);
    ShiftInIsMatrixStep(s, fb);
  }
}
