/**
 * The pulse trains of `src/siggens/train_pulse.py`. Each train starts from an
 * all-zero accumulator and folds in, symbol by symbol, the pulse of symbol i
 * scaled by code[i] with a pointwise maximum. `rect_tr` uses `rect_p`; the
 * sinc and raised-cosine pulses are abstract functions of (sample time,
 * centre, width[, roll-off]) evaluated sample by sample.
 */
module TrainPulse {
  import opened OnePulse

  /** `np.maximum` on two samples. */
  function Max(a: real, b: real): (m: real)
    ensures m >= a && m >= b && (m == a || m == b)
  {
    if a >= b then a else b
  }

  /**
   * The accumulator after folding the first n contributions, in order, into a
   * zero start: the largest of 0 and those contributions.
   */
  function Fold(cs: seq<real>, n: nat): (r: real)
    requires n <= |cs|
    ensures r >= 0.0
    ensures forall i :: 0 <= i < n ==> cs[i] <= r
    ensures r == 0.0 || exists i :: 0 <= i < n && cs[i] == r
  {
    if n == 0 then 0.0 else Max(Fold(cs, n - 1), cs[n - 1])
  }

  /** The accumulator once every contribution has been folded in. */
  function Envelope(cs: seq<real>): real
  {
    Fold(cs, |cs|)
  }

  /**
   * The order in which the contributions are folded does not matter: any
   * rearrangement of them gives the same envelope.
   */
  lemma EnvelopeOrderFree(a: seq<real>, b: seq<real>)
    requires multiset(a) == multiset(b)
    ensures Envelope(a) == Envelope(b)
  {
    forall x | x in a ensures x <= Envelope(b) {
      assert x in multiset(b);
    }
    forall x | x in b ensures x <= Envelope(a) {
      assert x in multiset(a);
    }
    if Envelope(a) != 0.0 {
      var i :| 0 <= i < |a| && a[i] == Envelope(a);
      assert a[i] in a;
    }
    if Envelope(b) != 0.0 {
      var j :| 0 <= j < |b| && b[j] == Envelope(b);
      assert b[j] in b;
    }
  }

  /** A pulse sample scaled by its symbol. */
  function Weigh(v: real, c: real): real
  {
    v * c
  }

  /** The scaled pulse values of every symbol at one sample time: pulse(i, tk) * code[i]. */
  function Contribs(code: seq<real>, pulse: (nat, real) -> real, tk: real): (cs: seq<real>)
    ensures |cs| == |code|
    ensures forall i :: 0 <= i < |code| ==> cs[i] == Weigh(pulse(i, tk), code[i])
  {
    seq(|code|, i requires 0 <= i < |code| => Weigh(pulse(i, tk), code[i]))
  }

  /**
   * A train: at every sample the maximum of 0 and every symbol's scaled pulse.
   * It is never negative, never below any single contribution, equal to 0 or to
   * one of the contributions, and all zero for an empty code.
   */
  function Train(t: seq<real>, code: seq<real>, pulse: (nat, real) -> real): (x: seq<real>)
    ensures |x| == |t|
    ensures forall k :: 0 <= k < |t| ==> x[k] >= 0.0
    ensures forall k, i :: 0 <= k < |t| && 0 <= i < |code| ==> x[k] >= Weigh(pulse(i, t[k]), code[i])
    ensures forall k :: 0 <= k < |t| ==>
              x[k] == 0.0 || exists i :: 0 <= i < |code| && x[k] == Weigh(pulse(i, t[k]), code[i])
    ensures |code| == 0 ==> forall k :: 0 <= k < |t| ==> x[k] == 0.0
  {
    seq(|t|, k requires 0 <= k < |t| => Envelope(Contribs(code, pulse, t[k])))
  }

  /** Two contribution lists that agree on their first n entries fold to the same accumulator. */
  lemma {:induction false} FoldPrefix(a: seq<real>, b: seq<real>, n: nat)
    requires n <= |a| && n <= |b|
    requires forall i :: 0 <= i < n ==> a[i] == b[i]
    ensures Fold(a, n) == Fold(b, n)
  {
    if n > 0 {
      FoldPrefix(a, b, n - 1);
    }
  }

  /**
   * A trailing symbol equal to 0 contributes nothing: the train with it is the
   * train without it, whatever the pulse shape.
   */
  lemma TrainDropsZeroSymbol(t: seq<real>, code: seq<real>, pulse: (nat, real) -> real)
    requires |code| >= 1 && code[|code| - 1] == 0.0
    ensures Train(t, code, pulse) == Train(t, code[..|code| - 1], pulse)
  {
    var n := |code| - 1;
    forall k | 0 <= k < |t|
      ensures Train(t, code, pulse)[k] == Train(t, code[..n], pulse)[k]
    {
      var cs, ds := Contribs(code, pulse, t[k]), Contribs(code[..n], pulse, t[k]);
      assert cs[n] == 0.0;
      FoldPrefix(cs, ds, n);
    }
  }

  // ---------------------------------------------------------------- rect_tr

  /** Rectangle i covers the open window (td + i (tp + ts), td + tp + i (tp + ts)). */
  function RectStart(tp: real, ts: real, td: real, i: nat): real
  {
    td + (i as real) * (tp + ts)
  }

  function RectEnd(tp: real, ts: real, td: real, i: nat): real
  {
    td + tp + (i as real) * (tp + ts)
  }

  /** The pulse of symbol i in `rect_tr`, sampled at tk. */
  function RectPulse(tp: real, ts: real, td: real): (nat, real) -> real
  {
    (i: nat, tk: real) => RectAt(tk, RectStart(tp, ts, td, i), RectEnd(tp, ts, td, i)) as real
  }

  /** The value `rect_tr` computes. */
  function RectTrain(t: seq<real>, tp: real, ts: real, td: real, code: seq<real>): (x: seq<real>)
    ensures |x| == |t|
  {
    Train(t, code, RectPulse(tp, ts, td))
  }

  /** The scaled pulse of symbol i: `rect_p` times code[i], as a new array. */
  function Scale(p: seq<real>, c: real): (q: seq<real>)
    ensures |q| == |p| && forall k :: 0 <= k < |p| ==> q[k] == Weigh(p[k], c)
  {
    seq(|p|, k requires 0 <= k < |p| => Weigh(p[k], c))
  }

  /** `np.maximum` on two arrays of one shape. */
  function Maximum(x: seq<real>, p: seq<real>): (m: seq<real>)
    requires |x| == |p|
    ensures |m| == |x| && forall k :: 0 <= k < |x| ==> m[k] == Max(x[k], p[k])
  {
    seq(|x|, k requires 0 <= k < |x| => Max(x[k], p[k]))
  }

  /** `np.zeros(np.shape(t))`: the accumulator before the first symbol (False in `rect_tr`, i.e. 0). */
  function Zeros(n: nat): (z: seq<real>)
    ensures |z| == n && forall k :: 0 <= k < n ==> z[k] == 0.0
  {
    seq(n, _ => 0.0)
  }

  /**
   * `rect_tr`: for every symbol, sample `rect_p` over its window, scale it by
   * the symbol and take the maximum with the accumulator.
   */
  method RectTr(t: seq<real>, tp: real, ts: real, td: real, code: seq<real>) returns (x: seq<real>)
    ensures x == RectTrain(t, tp, ts, td, code)
  {
    x := Zeros(|t|);
    for i := 0 to |code|
      invariant |x| == |t|
      invariant forall k :: 0 <= k < |t| ==> x[k] == Fold(Contribs(code, RectPulse(tp, ts, td), t[k]), i)
    {
      var ip := RectP(t, RectStart(tp, ts, td, i), RectEnd(tp, ts, td, i));
      var p := seq(|ip|, k requires 0 <= k < |ip| => ip[k] as real);
      ghost var pulse := RectPulse(tp, ts, td);
      forall k | 0 <= k < |t|
        ensures Max(x[k], Scale(p, code[i])[k]) == Fold(Contribs(code, pulse, t[k]), i + 1)
      {
        assert p[k] == pulse(i, t[k]);
      }
      x := Maximum(x, Scale(p, code[i]));
    }
  }

  /** A code whose symbols are all 0 or 1. */
  predicate IsBinary(code: seq<real>)
  {
    forall i :: 0 <= i < |code| ==> code[i] == 0.0 || code[i] == 1.0
  }

  /** Some symbol equal to 1 has its rectangle open around tk. */
  predicate Covered(tk: real, tp: real, ts: real, td: real, code: seq<real>)
  {
    exists i :: 0 <= i < |code| && code[i] == 1.0 && RectStart(tp, ts, td, i) < tk < RectEnd(tp, ts, td, i)
  }

  /**
   * For a 0/1 code, sample k of `rect_tr` is 1 exactly when some symbol equal to
   * 1 has its window open around t[k], and 0 otherwise; overlapping pulses never
   * add up past 1.
   */
  lemma RectTrainIndicator(t: seq<real>, tp: real, ts: real, td: real, code: seq<real>, k: nat)
    requires IsBinary(code) && k < |t|
    ensures RectTrain(t, tp, ts, td, code)[k] == (if Covered(t[k], tp, ts, td, code) then 1.0 else 0.0)
  {
    var pulse := RectPulse(tp, ts, td);
    var x := RectTrain(t, tp, ts, td, code);
    var cs := Contribs(code, pulse, t[k]);
    assert x[k] == Envelope(cs);
    forall i | 0 <= i < |code| ensures cs[i] == 0.0 || cs[i] == 1.0 {
      assert cs[i] == Weigh(pulse(i, t[k]), code[i]);
    }
    if Covered(t[k], tp, ts, td, code) {
      var i :| 0 <= i < |code| && code[i] == 1.0 && RectStart(tp, ts, td, i) < t[k] < RectEnd(tp, ts, td, i);
      assert cs[i] == 1.0;
    } else {
      forall i | 0 <= i < |code| ensures cs[i] == 0.0 {
        assert cs[i] == Weigh(pulse(i, t[k]), code[i]);
      }
    }
  }

  // ---------------------------------------------------------------- sinc_tr and rcos_tr

  /** The centre of pulse i: td + i ts. */
  function Centre(td: real, ts: real, i: nat): real
  {
    td + (i as real) * ts
  }

  /** The pulse of symbol i in `sinc_tr`: the abstract sinc pulse centred at td + i ts with width pw. */
  function SincPulse(sinc: (real, real, real) -> real, ts: real, td: real, pw: real): (nat, real) -> real
  {
    (i: nat, tk: real) => sinc(tk, Centre(td, ts, i), pw)
  }

  /** The pulse of symbol i in `rcos_tr`: the abstract raised-cosine pulse centred at td + i ts. */
  function RcosPulse(rcos: (real, real, real, real) -> real, ts: real, td: real, pw: real, alpha: real):
    (nat, real) -> real
  {
    (i: nat, tk: real) => rcos(tk, Centre(td, ts, i), pw, alpha)
  }

  /** `sinc_p` evaluated at every sample of the time axis. */
  function SincP(sinc: (real, real, real) -> real, t: seq<real>, t0: real, tb: real): (p: seq<real>)
    ensures |p| == |t| && forall k :: 0 <= k < |t| ==> p[k] == sinc(t[k], t0, tb)
  {
    seq(|t|, k requires 0 <= k < |t| => sinc(t[k], t0, tb))
  }

  /** `rcos_p` evaluated at every sample of the time axis. */
  function RcosP(rcos: (real, real, real, real) -> real, t: seq<real>, t0: real, tb: real, alpha: real):
    (p: seq<real>)
    ensures |p| == |t| && forall k :: 0 <= k < |t| ==> p[k] == rcos(t[k], t0, tb, alpha)
  {
    seq(|t|, k requires 0 <= k < |t| => rcos(t[k], t0, tb, alpha))
  }

  /**
   * `sinc_tr`: pulse i centred at td + i ts with width pw, scaled by code[i],
   * folded in with a maximum from zeros; the result is never negative.
   */
  method SincTr(sinc: (real, real, real) -> real, t: seq<real>, ts: real, td: real, code: seq<real>, pw: real)
    returns (x: seq<real>)
    ensures x == Train(t, code, SincPulse(sinc, ts, td, pw))
    ensures forall k :: 0 <= k < |t| ==> x[k] >= 0.0
  {
    x := Zeros(|t|);
    for i := 0 to |code|
      invariant |x| == |t|
      invariant forall k :: 0 <= k < |t| ==> x[k] == Fold(Contribs(code, SincPulse(sinc, ts, td, pw), t[k]), i)
    {
      var p := SincP(sinc, t, Centre(td, ts, i), pw);
      ghost var pulse := SincPulse(sinc, ts, td, pw);
      forall k | 0 <= k < |t|
        ensures Max(x[k], Scale(p, code[i])[k]) == Fold(Contribs(code, pulse, t[k]), i + 1)
      {
        assert p[k] == pulse(i, t[k]);
      }
      x := Maximum(x, Scale(p, code[i]));
    }
  }

  /**
   * `rcos_tr`: pulse i centred at td + i ts with width pw and roll-off alpha,
   * scaled by code[i], folded in with a maximum from zeros; never negative.
   */
  method RcosTr(rcos: (real, real, real, real) -> real, t: seq<real>, ts: real, td: real, code: seq<real>,
                pw: real, alpha: real)
    returns (x: seq<real>)
    ensures x == Train(t, code, RcosPulse(rcos, ts, td, pw, alpha))
    ensures forall k :: 0 <= k < |t| ==> x[k] >= 0.0
  {
    x := Zeros(|t|);
    for i := 0 to |code|
      invariant |x| == |t|
      invariant forall k :: 0 <= k < |t| ==>
                  x[k] == Fold(Contribs(code, RcosPulse(rcos, ts, td, pw, alpha), t[k]), i)
    {
      var p := RcosP(rcos, t, Centre(td, ts, i), pw, alpha);
      ghost var pulse := RcosPulse(rcos, ts, td, pw, alpha);
      forall k | 0 <= k < |t|
        ensures Max(x[k], Scale(p, code[i])[k]) == Fold(Contribs(code, pulse, t[k]), i + 1)
      {
        assert p[k] == pulse(i, t[k]);
      }
      x := Maximum(x, Scale(p, code[i]));
    }
  }
}
