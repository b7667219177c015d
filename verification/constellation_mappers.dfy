/**
 * The constellation mappers of `src/modulators/constallation_mappers.py`. Each
 * one resolves its keyword arguments (tp, td, ts, pw, alpha) against defaults
 * derived from the bit or symbol rate, builds one pulse train per branch and
 * maps every sample x to the level 2 x - 1. BPSK puts the whole data stream on
 * the in-phase branch and leaves the quadrature branch at 0; QPSK pads the
 * data with zeros to an even length, splits it into pairs and sends the first
 * bit of every pair to the in-phase branch and the second to the quadrature
 * branch, each bit read as "greater than 0".
 */
module ConstellationMappers {
  import opened Wrappers
  import opened TrainPulse

  /** One complex baseband sample. */
  datatype Complex = Complex(re: real, im: real)

  /** Division by a zero rate while computing a default. */
  datatype MapError = ZeroRate

  /** The optional keyword arguments; an absent keyword takes its default. */
  datatype Keywords = Keywords(tp: Option<real>, td: Option<real>, ts: Option<real>,
                               pw: Option<real>, alpha: Option<real>)

  /** The roll-off factor used when `alpha` is absent. */
  const DefaultAlpha: real := 0.8

  /**
   * A width setting: the keyword's value when given, otherwise 1 / rate,
   * which fails for a zero rate. A default is the reciprocal of the rate.
   */
  function Width(given: Option<real>, rate: real): (r: Result<real, MapError>)
    ensures given.Some? ==> r == Success(given.value)
    ensures r.Failure? <==> given.None? && rate == 0.0
    ensures given.None? && r.Success? ==> r.value * rate == 1.0
  {
    match given
    case Some(v) => Success(v)
    case None => if rate == 0.0 then Failure(ZeroRate) else Success(1.0 / rate)
  }

  /** Every train sample x becomes the level 2 x - 1. */
  function Level(x: real): real
  {
    2.0 * x - 1.0
  }

  /** A BPSK baseband: the levels of the in-phase train, with a zero quadrature branch. */
  function Bpsk(x: seq<real>): (bb: seq<Complex>)
    ensures |bb| == |x|
    ensures forall k :: 0 <= k < |x| ==> bb[k] == Complex(Level(x[k]), 0.0)
  {
    seq(|x|, k requires 0 <= k < |x| => Complex(Level(x[k]), 0.0))
  }

  /** A QPSK baseband: the levels of the in-phase train and of the quadrature train. */
  function Qpsk(xi: seq<real>, xq: seq<real>): (bb: seq<Complex>)
    requires |xi| == |xq|
    ensures |bb| == |xi|
    ensures forall k :: 0 <= k < |xi| ==> bb[k] == Complex(Level(xi[k]), Level(xq[k]))
  {
    seq(|xi|, k requires 0 <= k < |xi| => Complex(Level(xi[k]), Level(xq[k])))
  }

  // ---------------------------------------------------------------- QPSK pairing

  /**
   * The data padded for pairing: 2 - (length mod 2) zeros are appended, so an
   * odd length gets one zero and an even length a whole extra pair of zeros.
   */
  function QpskPad(data: seq<real>): (r: seq<real>)
    ensures |r| == |data| + 2 - |data| % 2
    ensures |r| % 2 == 0 && |r| > |data|
    ensures r[..|data|] == data
    ensures forall i :: |data| <= i < |r| ==> r[i] == 0.0
  {
    data + seq(2 - |data| % 2, _ => 0.0)
  }

  /**
   * Column c (0 or 1) of the data reshaped into pairs, compared with 0: one
   * code symbol per pair, 1 when that bit of the pair is greater than 0.
   */
  function Column(padded: seq<real>, c: nat): (code: seq<real>)
    requires |padded| % 2 == 0 && c < 2
    ensures |code| == |padded| / 2
    ensures IsBinary(code)
    ensures forall j :: 0 <= j < |code| ==> (code[j] == 1.0 <==> padded[2 * j + c] > 0.0)
  {
    seq(|padded| / 2, j requires 0 <= j < |padded| / 2 => if padded[2 * j + c] > 0.0 then 1.0 else 0.0)
  }

  /** The code of QPSK branch c: 0 is the in-phase branch, 1 the quadrature branch. */
  function Branch(data: seq<real>, c: nat): seq<real>
    requires c < 2
  {
    Column(QpskPad(data), c)
  }

  /**
   * Each branch has |data| / 2 + 1 symbols; data bit i lands in branch i mod 2
   * as symbol i / 2, and a symbol with no data bit behind it is 0. When the
   * data length is even both branches end with such a zero symbol.
   */
  lemma QpskPairing(data: seq<real>)
    ensures |Branch(data, 0)| == |Branch(data, 1)| == |data| / 2 + 1
    ensures forall i :: 0 <= i < |data| ==> (Branch(data, i % 2)[i / 2] == 1.0 <==> data[i] > 0.0)
    ensures forall c, j :: 0 <= c < 2 && 0 <= j < |data| / 2 + 1 && 2 * j + c >= |data| ==>
              Branch(data, c)[j] == 0.0
    ensures |data| % 2 == 0 ==> Branch(data, 0)[|data| / 2] == 0.0 && Branch(data, 1)[|data| / 2] == 0.0
  {
    var padded := QpskPad(data);
    forall i | 0 <= i < |data| ensures (Branch(data, i % 2)[i / 2] == 1.0 <==> data[i] > 0.0) {
      assert 2 * (i / 2) + i % 2 == i;
      assert padded[i] == padded[..|data|][i];
    }
  }

  /**
   * A branch symbol is 1 exactly when the data bit behind it exists and is
   * greater than 0.
   */
  lemma BranchSymbol(data: seq<real>, c: nat, j: nat)
    requires c < 2 && j < |Branch(data, c)|
    ensures Branch(data, c)[j] == 1.0 <==> 2 * j + c < |data| && data[2 * j + c] > 0.0
  {
    var padded := QpskPad(data);
    if 2 * j + c < |data| {
      assert padded[2 * j + c] == padded[..|data|][2 * j + c];
    }
  }

  // ---------------------------------------------------------------- rectangular pulses

  /**
   * `rect_bpsk_map`: tp defaults to 1 / b_rate, td and ts to 0; the in-phase
   * branch is the levels of `rect_tr` over the data itself. Only a missing tp
   * with a zero rate fails. The quadrature branch is 0 and no level is below -1.
   */
  function RectBpskMap(t: seq<real>, data: seq<real>, rate: real, kw: Keywords): (r: Result<seq<Complex>, MapError>)
    ensures r.Failure? <==> kw.tp.None? && rate == 0.0
    ensures r.Success? ==> |r.value| == |t|
    ensures r.Success? ==> forall k :: 0 <= k < |t| ==> r.value[k].im == 0.0 && r.value[k].re >= -1.0
  {
    match Width(kw.tp, rate)
    case Failure(e) => Failure(e)
    case Success(tp) => Success(Bpsk(RectTrain(t, tp, GetOr(kw.ts, 0.0), GetOr(kw.td, 0.0), data)))
  }

  /**
   * For 0/1 data, rectangular BPSK is +1 wherever the window of a 1 bit is open
   * and -1 everywhere else (including window edges and gaps).
   */
  lemma RectBpskLevels(t: seq<real>, data: seq<real>, rate: real, kw: Keywords, k: nat)
    requires IsBinary(data) && k < |t|
    requires RectBpskMap(t, data, rate, kw).Success?
    ensures RectBpskMap(t, data, rate, kw).value[k].re ==
              if Covered(t[k], Width(kw.tp, rate).value, GetOr(kw.ts, 0.0), GetOr(kw.td, 0.0), data)
              then 1.0 else -1.0
  {
    RectTrainIndicator(t, Width(kw.tp, rate).value, GetOr(kw.ts, 0.0), GetOr(kw.td, 0.0), data, k);
  }

  /**
   * `rect_qpsk_map`: tp defaults to 1 / s_rate, td and ts to 0; the branches are
   * the levels of `rect_tr` over the paired bits. Only a missing tp with a zero
   * rate fails.
   */
  function RectQpskMap(t: seq<real>, data: seq<real>, rate: real, kw: Keywords): (r: Result<seq<Complex>, MapError>)
    ensures r.Failure? <==> kw.tp.None? && rate == 0.0
    ensures r.Success? ==> |r.value| == |t|
  {
    match Width(kw.tp, rate)
    case Failure(e) => Failure(e)
    case Success(tp) =>
      var ts, td := GetOr(kw.ts, 0.0), GetOr(kw.td, 0.0);
      Success(Qpsk(RectTrain(t, tp, ts, td, Branch(data, 0)), RectTrain(t, tp, ts, td, Branch(data, 1))))
  }

  /** Window j of the rectangular train is open at tk. */
  predicate WindowOpen(tk: real, tp: real, ts: real, td: real, j: nat)
  {
    RectStart(tp, ts, td, j) < tk < RectEnd(tp, ts, td, j)
  }

  /** Some data bit of branch c that is greater than 0 has its window open at tk. */
  ghost predicate BranchOn(tk: real, tp: real, ts: real, td: real, data: seq<real>, c: nat)
  {
    exists j: nat :: 2 * j + c < |data| && data[2 * j + c] > 0.0 && WindowOpen(tk, tp, ts, td, j)
  }

  /** The rectangular train of branch c is the indicator of `BranchOn`. */
  lemma RectBranchIndicator(t: seq<real>, tp: real, ts: real, td: real, data: seq<real>, c: nat, k: nat)
    requires c < 2 && k < |t|
    ensures RectTrain(t, tp, ts, td, Branch(data, c))[k] == if BranchOn(t[k], tp, ts, td, data, c) then 1.0 else 0.0
  {
    var code := Branch(data, c);
    RectTrainIndicator(t, tp, ts, td, code, k);
    if Covered(t[k], tp, ts, td, code) {
      var j :| 0 <= j < |code| && code[j] == 1.0 && RectStart(tp, ts, td, j) < t[k] < RectEnd(tp, ts, td, j);
      BranchSymbol(data, c, j);
      assert WindowOpen(t[k], tp, ts, td, j);
    }
    if BranchOn(t[k], tp, ts, td, data, c) {
      var j: nat :| 2 * j + c < |data| && data[2 * j + c] > 0.0 && WindowOpen(t[k], tp, ts, td, j);
      assert j < |code|;
      BranchSymbol(data, c, j);
    }
  }

  /**
   * Rectangular QPSK sits on the four corners (+-1, +-1): the in-phase level
   * is +1 exactly when an even-position data bit greater than 0 has its window
   * (its pair's index) open, the quadrature level likewise for odd positions.
   */
  lemma RectQpskLevels(t: seq<real>, data: seq<real>, rate: real, kw: Keywords, k: nat)
    requires k < |t|
    requires RectQpskMap(t, data, rate, kw).Success?
    ensures var tp, ts, td := Width(kw.tp, rate).value, GetOr(kw.ts, 0.0), GetOr(kw.td, 0.0);
            var s := RectQpskMap(t, data, rate, kw).value[k];
            s.re == (if BranchOn(t[k], tp, ts, td, data, 0) then 1.0 else -1.0) &&
            s.im == (if BranchOn(t[k], tp, ts, td, data, 1) then 1.0 else -1.0)
  {
    var tp, ts, td := Width(kw.tp, rate).value, GetOr(kw.ts, 0.0), GetOr(kw.td, 0.0);
    RectBranchIndicator(t, tp, ts, td, data, 0, k);
    RectBranchIndicator(t, tp, ts, td, data, 1, k);
  }

  // ---------------------------------------------------------------- sinc pulses

  /**
   * `sinc_bpsk_map`: tp (default 1 / b_rate) becomes the spacing of the pulse
   * centres, td (default 0) the first centre and pw (default 1 / b_rate) the
   * main-lobe width. A missing tp or pw with a zero rate fails. The quadrature
   * branch is 0 and no level is below -1.
   */
  function SincBpskMap(sinc: (real, real, real) -> real, t: seq<real>, data: seq<real>, rate: real, kw: Keywords):
    (r: Result<seq<Complex>, MapError>)
    ensures r.Failure? <==> (kw.tp.None? || kw.pw.None?) && rate == 0.0
    ensures r.Success? ==> |r.value| == |t|
    ensures r.Success? ==> forall k :: 0 <= k < |t| ==> r.value[k].im == 0.0 && r.value[k].re >= -1.0
    ensures r.Success? ==>
              var pulse := SincPulse(sinc, Width(kw.tp, rate).value, GetOr(kw.td, 0.0), Width(kw.pw, rate).value);
              forall k :: 0 <= k < |t| ==> r.value[k].re == Level(Train(t, data, pulse)[k])
  {
    match Width(kw.tp, rate)
    case Failure(e) => Failure(e)
    case Success(tp) =>
      match Width(kw.pw, rate)
      case Failure(e) => Failure(e)
      case Success(pw) => Success(Bpsk(Train(t, data, SincPulse(sinc, tp, GetOr(kw.td, 0.0), pw))))
  }

  /**
   * `sinc_qpsk_map`: the same settings as `sinc_bpsk_map` with the symbol rate;
   * both branches are levels of sinc trains over the paired bits, so neither
   * level is below -1.
   */
  function SincQpskMap(sinc: (real, real, real) -> real, t: seq<real>, data: seq<real>, rate: real, kw: Keywords):
    (r: Result<seq<Complex>, MapError>)
    ensures r.Failure? <==> (kw.tp.None? || kw.pw.None?) && rate == 0.0
    ensures r.Success? ==> |r.value| == |t|
    ensures r.Success? ==> forall k :: 0 <= k < |t| ==> r.value[k].re >= -1.0 && r.value[k].im >= -1.0
    ensures r.Success? ==>
              var pulse := SincPulse(sinc, Width(kw.tp, rate).value, GetOr(kw.td, 0.0), Width(kw.pw, rate).value);
              forall k :: 0 <= k < |t| ==>
                r.value[k] == Complex(Level(Train(t, Branch(data, 0), pulse)[k]), Level(Train(t, Branch(data, 1), pulse)[k]))
  {
    match Width(kw.tp, rate)
    case Failure(e) => Failure(e)
    case Success(tp) =>
      match Width(kw.pw, rate)
      case Failure(e) => Failure(e)
      case Success(pw) =>
        var pulse := SincPulse(sinc, tp, GetOr(kw.td, 0.0), pw);
        Success(Qpsk(Train(t, Branch(data, 0), pulse), Train(t, Branch(data, 1), pulse)))
  }

  // ---------------------------------------------------------------- raised-cosine pulses

  /**
   * `rcos_bpsk_map`: as `sinc_bpsk_map`, with the roll-off alpha defaulting to
   * 0.8. A missing tp or pw with a zero rate fails; the quadrature branch is 0
   * and no level is below -1.
   */
  function RcosBpskMap(rcos: (real, real, real, real) -> real, t: seq<real>, data: seq<real>, rate: real,
                       kw: Keywords): (r: Result<seq<Complex>, MapError>)
    ensures r.Failure? <==> (kw.tp.None? || kw.pw.None?) && rate == 0.0
    ensures r.Success? ==> |r.value| == |t|
    ensures r.Success? ==> forall k :: 0 <= k < |t| ==> r.value[k].im == 0.0 && r.value[k].re >= -1.0
    ensures r.Success? ==>
              var pulse := RcosPulse(rcos, Width(kw.tp, rate).value, GetOr(kw.td, 0.0), Width(kw.pw, rate).value,
                                     GetOr(kw.alpha, DefaultAlpha));
              forall k :: 0 <= k < |t| ==> r.value[k].re == Level(Train(t, data, pulse)[k])
  {
    match Width(kw.tp, rate)
    case Failure(e) => Failure(e)
    case Success(tp) =>
      match Width(kw.pw, rate)
      case Failure(e) => Failure(e)
      case Success(pw) =>
        var alpha := GetOr(kw.alpha, DefaultAlpha);
        Success(Bpsk(Train(t, data, RcosPulse(rcos, tp, GetOr(kw.td, 0.0), pw, alpha))))
  }

  /**
   * `rcos_qpsk_map`: the settings of `rcos_bpsk_map` with the symbol rate; both
   * branches are levels of raised-cosine trains over the paired bits.
   */
  function RcosQpskMap(rcos: (real, real, real, real) -> real, t: seq<real>, data: seq<real>, rate: real,
                       kw: Keywords): (r: Result<seq<Complex>, MapError>)
    ensures r.Failure? <==> (kw.tp.None? || kw.pw.None?) && rate == 0.0
    ensures r.Success? ==> |r.value| == |t|
    ensures r.Success? ==> forall k :: 0 <= k < |t| ==> r.value[k].re >= -1.0 && r.value[k].im >= -1.0
    ensures r.Success? ==>
              var pulse := RcosPulse(rcos, Width(kw.tp, rate).value, GetOr(kw.td, 0.0), Width(kw.pw, rate).value,
                                     GetOr(kw.alpha, DefaultAlpha));
              forall k :: 0 <= k < |t| ==>
                r.value[k] == Complex(Level(Train(t, Branch(data, 0), pulse)[k]), Level(Train(t, Branch(data, 1), pulse)[k]))
  {
    match Width(kw.tp, rate)
    case Failure(e) => Failure(e)
    case Success(tp) =>
      match Width(kw.pw, rate)
      case Failure(e) => Failure(e)
      case Success(pw) =>
        var pulse := RcosPulse(rcos, tp, GetOr(kw.td, 0.0), pw, GetOr(kw.alpha, DefaultAlpha));
        Success(Qpsk(Train(t, Branch(data, 0), pulse), Train(t, Branch(data, 1), pulse)))
  }

  // ---------------------------------------------------------------- pulse placement

  /**
   * A data bit greater than 0 puts at least its whole pulse into its branch of a
   * QPSK sample: bit i lands in branch i mod 2 (real part for even i, imaginary
   * part for odd i) as symbol i / 2, whatever the pulse shape.
   */
  lemma BranchPlacement(t: seq<real>, data: seq<real>, pulse: (nat, real) -> real, k: nat, i: nat, s: Complex)
    requires k < |t| && i < |data| && data[i] > 0.0
    requires s == Complex(Level(Train(t, Branch(data, 0), pulse)[k]), Level(Train(t, Branch(data, 1), pulse)[k]))
    ensures (if i % 2 == 0 then s.re else s.im) >= Level(pulse(i / 2, t[k]))
  {
    var c, j := i % 2, i / 2;
    assert 2 * j + c == i;
    QpskPairing(data);
    BranchSymbol(data, c, j);
    var code := Branch(data, c);
    var x := Train(t, code, pulse);
    assert x[k] >= Weigh(pulse(j, t[k]), code[j]);
    assert Weigh(pulse(j, t[k]), 1.0) == pulse(j, t[k]);
    if c == 0 {
      assert s.re == Level(x[k]);
    } else {
      assert c == 1;
      assert x == Train(t, Branch(data, 1), pulse);
    }
  }

  /**
   * In `sinc_bpsk_map` tp is the spacing of the pulses: the real part never falls
   * below the level of the sinc pulse of width pw centred at td + i tp, scaled by
   * data bit i.
   */
  lemma SincBpskPlacement(sinc: (real, real, real) -> real, t: seq<real>, data: seq<real>, rate: real,
                          kw: Keywords, k: nat, i: nat)
    requires SincBpskMap(sinc, t, data, rate, kw).Success? && k < |t| && i < |data|
    ensures var tp, td, pw := Width(kw.tp, rate).value, GetOr(kw.td, 0.0), Width(kw.pw, rate).value;
            SincBpskMap(sinc, t, data, rate, kw).value[k].re >=
              Level(Weigh(sinc(t[k], td + (i as real) * tp, pw), data[i]))
  {
    var tp, td, pw := Width(kw.tp, rate).value, GetOr(kw.td, 0.0), Width(kw.pw, rate).value;
    var pulse := SincPulse(sinc, tp, td, pw);
    var x := Train(t, data, pulse);
    assert SincBpskMap(sinc, t, data, rate, kw).value[k].re == Level(x[k]);
    assert pulse(i, t[k]) == sinc(t[k], Centre(td, tp, i), pw);
    assert x[k] >= Weigh(pulse(i, t[k]), data[i]);
  }

  /**
   * In `sinc_qpsk_map` a data bit i greater than 0 raises its branch (real part
   * for even i, imaginary part for odd i) to at least the level of the sinc pulse
   * of width pw centred at td + (i / 2) tp.
   */
  lemma SincQpskPlacement(sinc: (real, real, real) -> real, t: seq<real>, data: seq<real>, rate: real,
                          kw: Keywords, k: nat, i: nat)
    requires SincQpskMap(sinc, t, data, rate, kw).Success? && k < |t| && i < |data| && data[i] > 0.0
    ensures var tp, td, pw := Width(kw.tp, rate).value, GetOr(kw.td, 0.0), Width(kw.pw, rate).value;
            var s := SincQpskMap(sinc, t, data, rate, kw).value[k];
            (if i % 2 == 0 then s.re else s.im) >= Level(sinc(t[k], td + ((i / 2) as real) * tp, pw))
  {
    var tp, td, pw := Width(kw.tp, rate).value, GetOr(kw.td, 0.0), Width(kw.pw, rate).value;
    var pulse := SincPulse(sinc, tp, td, pw);
    BranchPlacement(t, data, pulse, k, i, SincQpskMap(sinc, t, data, rate, kw).value[k]);
    var c := Centre(td, tp, i / 2);
    assert pulse(i / 2, t[k]) == sinc(t[k], c, pw);
    assert c == td + ((i / 2) as real) * tp;
  }

  /**
   * In `rcos_bpsk_map` tp is the spacing of the pulses and alpha defaults to 0.8:
   * the real part never falls below the level of the raised-cosine pulse centred
   * at td + i tp, scaled by data bit i.
   */
  lemma RcosBpskPlacement(rcos: (real, real, real, real) -> real, t: seq<real>, data: seq<real>, rate: real,
                          kw: Keywords, k: nat, i: nat)
    requires RcosBpskMap(rcos, t, data, rate, kw).Success? && k < |t| && i < |data|
    ensures var tp, td, pw := Width(kw.tp, rate).value, GetOr(kw.td, 0.0), Width(kw.pw, rate).value;
            RcosBpskMap(rcos, t, data, rate, kw).value[k].re >=
              Level(Weigh(rcos(t[k], td + (i as real) * tp, pw, GetOr(kw.alpha, DefaultAlpha)), data[i]))
  {
    var tp, td, pw := Width(kw.tp, rate).value, GetOr(kw.td, 0.0), Width(kw.pw, rate).value;
    var pulse := RcosPulse(rcos, tp, td, pw, GetOr(kw.alpha, DefaultAlpha));
    var x := Train(t, data, pulse);
    assert RcosBpskMap(rcos, t, data, rate, kw).value[k].re == Level(x[k]);
    assert pulse(i, t[k]) == rcos(t[k], Centre(td, tp, i), pw, GetOr(kw.alpha, DefaultAlpha));
    assert x[k] >= Weigh(pulse(i, t[k]), data[i]);
  }

  /**
   * In `rcos_qpsk_map` a data bit i greater than 0 raises its branch (real part
   * for even i, imaginary part for odd i) to at least the level of the
   * raised-cosine pulse centred at td + (i / 2) tp.
   */
  lemma RcosQpskPlacement(rcos: (real, real, real, real) -> real, t: seq<real>, data: seq<real>, rate: real,
                          kw: Keywords, k: nat, i: nat)
    requires RcosQpskMap(rcos, t, data, rate, kw).Success? && k < |t| && i < |data| && data[i] > 0.0
    ensures var tp, td, pw := Width(kw.tp, rate).value, GetOr(kw.td, 0.0), Width(kw.pw, rate).value;
            var s := RcosQpskMap(rcos, t, data, rate, kw).value[k];
            (if i % 2 == 0 then s.re else s.im) >= Level(rcos(t[k], td + ((i / 2) as real) * tp, pw, GetOr(kw.alpha, DefaultAlpha)))
  {
    var tp, td, pw := Width(kw.tp, rate).value, GetOr(kw.td, 0.0), Width(kw.pw, rate).value;
    var pulse := RcosPulse(rcos, tp, td, pw, GetOr(kw.alpha, DefaultAlpha));
    BranchPlacement(t, data, pulse, k, i, RcosQpskMap(rcos, t, data, rate, kw).value[k]);
    var c := Centre(td, tp, i / 2);
    assert pulse(i / 2, t[k]) == rcos(t[k], c, pw, GetOr(kw.alpha, DefaultAlpha));
    assert c == td + ((i / 2) as real) * tp;
  }

  /**
   * The extra zero pair that even-length data receives changes neither branch:
   * for every pulse shape, the trains over the padded branches equal the trains
   * over the branches without their last symbol.
   */
  lemma EvenPaddingIsInert(t: seq<real>, data: seq<real>, pulse: (nat, real) -> real, c: nat)
    requires c < 2 && |data| % 2 == 0
    ensures var code := Branch(data, c);
            Train(t, code, pulse) == Train(t, code[..|code| - 1], pulse)
  {
    QpskPairing(data);
    TrainDropsZeroSymbol(t, Branch(data, c), pulse);
  }
}
