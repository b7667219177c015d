# PRN bit streams, pulse trains and constellation mappers in Dafny

This project models the signal-generation core of a Python toolkit for
spread-spectrum and GNSS experiments:

- **The shift-register sequence engine over GF(2)** (`src/siggens/PRN_bitstreams.py`, `src/run.py`,
  `src/siggens/ssrg_script.py`). `build_srm` builds the transition matrix of a simple shift-register
  generator (SSRG) from a feedback vector. The state advances one step as `(M x) mod 2`, n steps
  as `(M^n x) mod 2`, or by the recursion of `src/run.py`. `ssrg` runs the register by hand and
  emits its last cell. `gold_seq` combines two 10-cell registers into a GPS C/A Gold code: G1 is
  1 + X^3 + X^10 and G2 is 1 + X^2 + X^3 + X^6 + X^8 + X^9 + X^10, with G2 phase selection by two
  taps. This is the construction of IS-GPS-200, section 3.3.2.3.
- **Pulse synthesis** (`src/siggens/one_pulse.py`, `src/siggens/train_pulse.py`). `rect_p` is an
  open-interval indicator. `rect_tr`, `sinc_tr` and `rcos_tr` fold one scaled pulse per symbol into
  an all-zero accumulator with a pointwise maximum.
- **Constellation mapping** (`src/modulators/constallation_mappers.py`). Six mappers do the same
  four things:
  - resolve the keyword defaults;
  - for QPSK, pad and pair the bits;
  - build one train per branch;
  - map every sample to the level `2 x - 1` of a complex baseband.

Modules, one per source file plus two support modules:

| module | file | models |
|---|---|---|
| `Wrappers` | wrappers.dfy | `Option` for keyword arguments, `Result` for the exceptions the code can raise |
| `NumpyOps` | numpy_ops.dfy | `np.roll` (a fresh array) and Python's negative indexing |
| `Gf2Matrix` | gf2_matrix.dfy | integer vectors and matrices, `% 2`, matrix power, and the algebra behind the equivalence proofs |
| `PrnBitstreams` | prn_bitstreams.dfy | `build_srm`, `proceed_ssrg_onestep`, `proceed_ssrg_np_pow`, `ssrg`, `gold_seq` |
| `RunSsrg` | run_ssrg.dfy | `proceed_ssrg_recursion` and the driver's hard-coded matrix in `src/run.py` |
| `SsrgScript` | ssrg_script.dfy | the roll(-1) copy of `ssrg` in `src/siggens/ssrg_script.py` |
| `OnePulse` | one_pulse.dfy | `rect_p` |
| `TrainPulse` | train_pulse.dfy | `rect_tr`, `sinc_tr`, `rcos_tr` |
| `ConstellationMappers` | constellation_mappers.dfy | the six `*_map` functions |

How the Python maps onto Dafny:

- Numbers are exact: Dafny `int` for register cells and matrices, `real` for time axes and trains.
- The loops of `ssrg`, `gold_seq` and the train generators are methods with loop invariants. Each
  is proved against a specification function: `RegisterAfter`, `ChipAfter`, `Train`.
- Register arrays are Dafny arrays. Each pass rolls into a fresh array, exactly as `np.roll` does,
  so the caller's initial register is never written. None of these methods has a `modifies` clause.
- Raised exceptions are `Failure` values:
  - `np.zeros` with a negative size;
  - `np.dot` on vectors of different lengths;
  - indexing an empty register;
  - an out-of-range G2 tap;
  - `build_srm` on an empty feedback vector (its other shape failure, a 1-D feedback array, is
    listed under "Left out");
  - `1 / rate` with a zero rate.
- The sinc and raised-cosine pulse shapes are function parameters of the model.

## Model

| member | source | states |
|---|---|---|
| NumpyOps.RollArray | src/siggens/PRN_bitstreams.py:61 | `np.roll` returns a new array holding the cyclic shift of the argument |
| NumpyOps.RollRight | src/siggens/PRN_bitstreams.py:61 | roll by +1 moves each cell one place towards the end and wraps the last cell to the front |
| NumpyOps.RollLeft | src/siggens/ssrg_script.py:15 | roll by -1 moves each cell one place towards the front and wraps the first cell to the end |
| NumpyOps.PyIndex | src/siggens/PRN_bitstreams.py:98 | Python index k reads position k, or k + len when k is negative, and stays inside the register |
| Gf2Matrix.Mod2 | src/siggens/PRN_bitstreams.py:36 | `% 2` on a vector gives a 0/1 vector with the same parity in every entry |
| Gf2Matrix.MatVecMul | src/siggens/PRN_bitstreams.py:32 | applying a matrix product to a vector is applying its factors in turn |
| Gf2Matrix.MatVecMod2 | src/siggens/PRN_bitstreams.py:32 | reducing the vector modulo 2 before multiplying does not change the product modulo 2 |
| PrnBitstreams.BuildSrm | src/siggens/PRN_bitstreams.py:11-21 | L x L matrix: row 0 is the feedback vector, row i has its single 1 at column i - 1; an empty feedback vector fails (the feedback is taken as the 1 x L row the source requires) |
| PrnBitstreams.OneStep | src/siggens/PRN_bitstreams.py:35-37 | the one-step advance keeps the length and holds only 0/1 entries (`src/run.py:61-62` is the same expression) |
| PrnBitstreams.PowStep | src/siggens/PRN_bitstreams.py:31-33 | the closed-form n-step advance keeps the length and holds only 0/1 entries (`src/run.py:57-59` is the same expression) |
| PrnBitstreams.SrmStep | src/siggens/PRN_bitstreams.py:35-37 | with the `build_srm` matrix one step maps [s0..s(L-1)] to [(fb . s) mod 2, s0 mod 2, ..., s(L-2) mod 2] |
| PrnBitstreams.PowStepZero | src/siggens/PRN_bitstreams.py:31-33 | advancing by 0 returns x mod 2 |
| PrnBitstreams.PowStepSucc | src/siggens/PRN_bitstreams.py:31-37 | advancing by n + 1 is one more single step after advancing by n |
| PrnBitstreams.PowStepIsIteration | src/siggens/PRN_bitstreams.py:31-37 | advancing by M^n equals n single steps from x mod 2, for every n >= 0 |
| PrnBitstreams.PowStepIsStepN | src/siggens/PRN_bitstreams.py:31-37 | advancing by M^n equals n single steps from x itself, when n >= 1 or x is a 0/1 vector |
| PrnBitstreams.StepNMod2 | src/siggens/PRN_bitstreams.py:35-37 | after at least one step, reducing the start state modulo 2 makes no difference |
| PrnBitstreams.ShiftIn | src/siggens/PRN_bitstreams.py:59-62 | one loop pass: new cell 0 is (state . fb) mod 2, new cell k is old cell k - 1 |
| PrnBitstreams.ShiftRegister | src/siggens/PRN_bitstreams.py:59-62 | the pass rolls into a fresh array and overwrites its cell 0, leaving the old register unwritten |
| PrnBitstreams.RegisterAfter | src/siggens/PRN_bitstreams.py:58-62 | the register keeps its length over the passes and stays 0/1 when it starts 0/1 |
| PrnBitstreams.ShiftInIsMatrixStep | src/siggens/PRN_bitstreams.py:59-62 | on a 0/1 register the hand-written pass is exactly the one-step advance with the `build_srm` matrix |
| PrnBitstreams.RegisterAfterIsPowStep | src/siggens/PRN_bitstreams.py:58-62 | from a 0/1 initial register, k passes of the loop reach (M^k init) mod 2 |
| PrnBitstreams.RegisterAfterMod2IsPowStep | src/siggens/PRN_bitstreams.py:58-62 | from any integer initial register, k passes of the loop reduced modulo 2 reach (M^k init) mod 2 |
| PrnBitstreams.Emitted | src/siggens/PRN_bitstreams.py:60 | the recorded prefix has one entry per pass |
| PrnBitstreams.EmittedCells | src/siggens/PRN_bitstreams.py:60 | recorded entry j is the last cell of the state after j passes |
| PrnBitstreams.RunRegister | src/siggens/PRN_bitstreams.py:52-62 | the output has n entries, the last stays 0, and the first n - 1 are the recorded last cells |
| PrnBitstreams.AsBool | src/siggens/PRN_bitstreams.py:65 | `astype(bool)` is true exactly for the non-zero entries |
| PrnBitstreams.Ssrg | src/siggens/PRN_bitstreams.py:40-65 | n_bits values (default 7), the last one false; value i is the last cell of the state after i passes; the exact error for a negative length, mismatched shapes or an empty register |
| PrnBitstreams.Taps | src/siggens/PRN_bitstreams.py:90-91 | the 1-based tap positions are exactly the non-zero feedback entries |
| PrnBitstreams.GpsGeneratorTaps | src/siggens/PRN_bitstreams.py:90-91 | the feedback vectors have taps {3, 10} (G1) and {2, 3, 6, 8, 9, 10} (G2) |
| PrnBitstreams.AllOnesAreBits | src/siggens/PRN_bitstreams.py:87-88 | the all-ones seed is ten cells of 0/1 values, as the Gold chip reads require |
| PrnBitstreams.ChipOf | src/siggens/PRN_bitstreams.py:97-99 | the chip is reg1[9] xor reg2[x1 - 1] xor reg2[x2 - 1], with Python's negative indexing |
| PrnBitstreams.ReadChip | src/siggens/PRN_bitstreams.py:97-99 | the array reads of one pass compute that chip |
| PrnBitstreams.ChipAfter | src/siggens/PRN_bitstreams.py:96-108 | chip i, read from both registers after i shifts, is 0 or 1 |
| PrnBitstreams.GoldChip | src/siggens/PRN_bitstreams.py:87-108 | the chip of the G1/G2 pair reset to all ones is 0 or 1 |
| PrnBitstreams.GoldChipIsXor | src/siggens/PRN_bitstreams.py:96-108 | chip i is the xor of three cells of the closed-form states (G1^i ones) mod 2 and (G2^i ones) mod 2 |
| PrnBitstreams.NewRegister | src/siggens/PRN_bitstreams.py:87-88 | each call allocates a fresh register holding the seed |
| PrnBitstreams.GoldPass | src/siggens/PRN_bitstreams.py:96-108 | one pass reads chip i before shifting, then shifts each register exactly once |
| PrnBitstreams.RunRegisterPair | src/siggens/PRN_bitstreams.py:96-108 | the loop writes chip j into x[j] for every j |
| PrnBitstreams.GoldSeq | src/siggens/PRN_bitstreams.py:67-118 | no_periods * no_bits values (defaults 1 and 1023), value i is Gold chip i, and the error for a negative length or an out-of-range tap |
| RunSsrg.Recursion | src/run.py:48-54 | the recursion keeps the length and returns 0/1 entries for every n |
| RunSsrg.RecursionStep | src/run.py:48-54 | for n >= 1 the recursion is one single step applied to its value for n - 1 |
| RunSsrg.RecursionIsPowStep | src/run.py:48-59 | the recursion equals the closed-form power advance for every n >= 0 |
| RunSsrg.RecursionIsIteration | src/run.py:48-62 | for n = 1 the recursion is one single step; for every n it is n single steps (from x mod 2, or from x when n >= 1 or x is 0/1) |
| RunSsrg.DriverMatrixIsBuildSrm | src/run.py:26 | the driver's hand-written matrix is `build_srm([1, 0, 0, 1])` |
| SsrgScript.ScriptShiftIn | src/siggens/ssrg_script.py:13-16 | the script's pass: new cell 0 is (state . fb) mod 2, new cell k is old cell k + 1, new last cell is old cell 0 |
| SsrgScript.ScriptShiftRegister | src/siggens/ssrg_script.py:13-16 | the pass rolls by -1 into a fresh array, then overwrites its cell 0 |
| SsrgScript.ScriptRegisterAfter | src/siggens/ssrg_script.py:12-16 | the register keeps its length over the passes |
| SsrgScript.ScriptRegisterStaysBits | src/siggens/ssrg_script.py:12-16 | a 0/1 register stays 0/1 over any number of passes |
| SsrgScript.ScriptMatrix | src/siggens/ssrg_script.py:13-16 | the script's update matrix is square with the feedback vector as row 0 |
| SsrgScript.ScriptShiftInIsMatrixStep | src/siggens/ssrg_script.py:13-16 | on a 0/1 register the script's pass is a matrix step modulo 2 with `ScriptMatrix` |
| SsrgScript.ScriptMatrixIsBuildSrmIffShort | src/siggens/ssrg_script.py:13-16 | the script's matrix equals `build_srm`'s exactly when the register has at most two cells; from three cells on, row 1 picks cell 2 instead of cell 0 |
| SsrgScript.ScriptEmitted | src/siggens/ssrg_script.py:14 | the recorded prefix has one entry per pass |
| SsrgScript.ScriptEmittedCells | src/siggens/ssrg_script.py:14 | recorded entry j is the last cell of the state after j passes |
| SsrgScript.RunScriptRegister | src/siggens/ssrg_script.py:6-16 | the output has n entries, the last stays 0, and the first n - 1 are the recorded last cells |
| SsrgScript.Ssrg | src/siggens/ssrg_script.py:3-18 | n_bits numeric values, the last one 0; value i is the last cell after i passes; the exact error for a negative length, mismatched shapes or an empty register |
| SsrgScript.ScriptDiffersFromShiftRegister | src/siggens/ssrg_script.py:15-16 | from [1, 0, 0] with feedback [1, 0, 1] the script reaches [1, 0, 1] while the `build_srm` step reaches [1, 1, 0] |
| OnePulse.RectAt | src/siggens/one_pulse.py:31 | one sample is 1 exactly when t_start < t < t_end, otherwise 0 |
| OnePulse.RectP | src/siggens/one_pulse.py:10-32 | length of t; each sample is 0 or 1 and depends on t[k] alone; 1 iff strictly inside; edges give 0; t_start >= t_end gives all 0 |
| TrainPulse.Max | src/siggens/train_pulse.py:31 | `np.maximum` of two samples is the larger of the two |
| TrainPulse.Fold | src/siggens/train_pulse.py:28-31 | the accumulator after n symbols is >= 0 and >= each contribution so far, and is either 0 or one of them |
| TrainPulse.EnvelopeOrderFree | src/siggens/train_pulse.py:31 | any rearrangement of the symbols' contributions gives the same sample |
| TrainPulse.Contribs | src/siggens/train_pulse.py:31 | contribution i at a sample is pulse i scaled by code[i] |
| TrainPulse.Train | src/siggens/train_pulse.py:25-31 | length of t; every sample is >= 0, >= each scaled contribution, and is 0 or one of them; an empty code gives all zeros |
| TrainPulse.FoldPrefix | src/siggens/train_pulse.py:28-31 | the accumulator depends only on the contributions folded so far |
| TrainPulse.TrainDropsZeroSymbol | src/siggens/train_pulse.py:28-31 | a trailing 0 symbol leaves the whole train unchanged, for any pulse shape |
| TrainPulse.RectTrain | src/siggens/train_pulse.py:12-32 | the rectangular train has the length of t |
| TrainPulse.Scale | src/siggens/train_pulse.py:31 | `p * code[i]` scales every sample of the pulse |
| TrainPulse.Maximum | src/siggens/train_pulse.py:31 | `np.maximum` on two arrays is the sample-wise maximum |
| TrainPulse.Zeros | src/siggens/train_pulse.py:25 | the accumulator starts all zero (False) with the shape of t |
| TrainPulse.RectTr | src/siggens/train_pulse.py:12-32 | the loop computes the rectangular train with window i = (td + i (tp + ts), td + tp + i (tp + ts)) |
| TrainPulse.RectTrainIndicator | src/siggens/train_pulse.py:28-31 | for a 0/1 code, sample k is 1 iff the window of some 1 symbol contains t[k], otherwise 0: overlaps never exceed 1 |
| TrainPulse.SincP | src/siggens/train_pulse.py:48 | the pulse of symbol i is evaluated at every sample of t |
| TrainPulse.RcosP | src/siggens/train_pulse.py:68 | the pulse of symbol i is evaluated at every sample of t |
| TrainPulse.SincTr | src/siggens/train_pulse.py:34-51 | the loop computes the train of sinc pulses centred at td + i ts, and every sample is >= 0 |
| TrainPulse.RcosTr | src/siggens/train_pulse.py:53-71 | the loop computes the train of raised-cosine pulses centred at td + i ts, and every sample is >= 0 |
| ConstellationMappers.Width | src/modulators/constallation_mappers.py:41-44 | a given keyword is used as is; otherwise the default is the reciprocal of the rate, and a zero rate fails |
| ConstellationMappers.Bpsk | src/modulators/constallation_mappers.py:57-59 | BPSK sample k is (2 x[k] - 1) + 0j |
| ConstellationMappers.Qpsk | src/modulators/constallation_mappers.py:112-114 | QPSK sample k is (2 xi[k] - 1) + (2 xq[k] - 1) j |
| ConstellationMappers.QpskPad | src/modulators/constallation_mappers.py:89-91 | 2 - (len mod 2) zeros are appended; the data is kept as a prefix and the padded length is even |
| ConstellationMappers.Column | src/modulators/constallation_mappers.py:92-93 | one 0/1 symbol per pair, 1 iff that bit of the pair is > 0 |
| ConstellationMappers.QpskPairing | src/modulators/constallation_mappers.py:89-93 | len/2 + 1 symbols per branch; data bit i lands in branch i mod 2 at symbol i / 2; padding symbols are 0 |
| ConstellationMappers.BranchSymbol | src/modulators/constallation_mappers.py:89-93 | a branch symbol is 1 iff its data bit exists and is > 0 |
| ConstellationMappers.RectBpskMap | src/modulators/constallation_mappers.py:16-61 | fails iff tp is absent and the rate is 0; length of t; imaginary part 0; real part >= -1 |
| ConstellationMappers.RectBpskLevels | src/modulators/constallation_mappers.py:57 | for 0/1 data the real part is +1 where a 1 bit's window is open and -1 everywhere else |
| ConstellationMappers.RectQpskMap | src/modulators/constallation_mappers.py:64-116 | fails iff tp is absent and the rate is 0; length of t |
| ConstellationMappers.RectBranchIndicator | src/modulators/constallation_mappers.py:112-113 | the rectangular branch train is 1 iff the window of a branch bit > 0 is open, otherwise 0 |
| ConstellationMappers.RectQpskLevels | src/modulators/constallation_mappers.py:112-114 | real and imaginary parts are both +-1: +1 iff an even-position (real) or odd-position (imaginary) bit > 0 has its pair's window open |
| ConstellationMappers.SincBpskMap | src/modulators/constallation_mappers.py:119-164 | fails iff tp or pw is absent and the rate is 0; length of t; imaginary part 0; real part >= -1; real part k is 2 x[k] - 1 for the sinc train of the data with spacing tp, delay td (default 0) and width pw |
| ConstellationMappers.SincBpskPlacement | src/modulators/constallation_mappers.py:144-160 | real part k is at least the level of the sinc pulse of width pw centred at td + i tp, scaled by data bit i, for every bit i |
| ConstellationMappers.SincQpskMap | src/modulators/constallation_mappers.py:166-218 | fails iff tp or pw is absent and the rate is 0; length of t; both parts >= -1; the real part comes from the sinc train of the even-position bits and the imaginary part from that of the odd-position bits, with spacing tp, delay td (default 0) and width pw |
| ConstellationMappers.BranchPlacement | src/modulators/constallation_mappers.py:89-93 | in a QPSK sample a data bit i > 0 lifts branch i mod 2 (real for even i, imaginary for odd i) to at least the level of its own pulse, symbol i / 2, whatever the pulse shape |
| ConstellationMappers.SincQpskPlacement | src/modulators/constallation_mappers.py:198-215 | a data bit i > 0 lifts its branch to at least the level of the sinc pulse of width pw centred at td + (i / 2) tp |
| ConstellationMappers.RcosBpskMap | src/modulators/constallation_mappers.py:220-273 | fails iff tp or pw is absent and the rate is 0; length of t; imaginary part 0; real part >= -1; real part k is 2 x[k] - 1 for the raised-cosine train of the data with spacing tp, delay td (default 0), width pw and roll-off alpha (default 0.8) |
| ConstellationMappers.RcosBpskPlacement | src/modulators/constallation_mappers.py:245-269 | real part k is at least the level of the raised-cosine pulse centred at td + i tp (roll-off alpha, default 0.8), scaled by data bit i, for every bit i |
| ConstellationMappers.RcosQpskMap | src/modulators/constallation_mappers.py:275-335 | fails iff tp or pw is absent and the rate is 0; length of t; both parts >= -1; the real part comes from the raised-cosine train of the even-position bits and the imaginary part from that of the odd-position bits, with spacing tp, delay td (default 0), width pw and roll-off alpha (default 0.8) |
| ConstellationMappers.RcosQpskPlacement | src/modulators/constallation_mappers.py:310-332 | a data bit i > 0 lifts its branch to at least the level of the raised-cosine pulse centred at td + (i / 2) tp (roll-off alpha, default 0.8) |
| ConstellationMappers.EvenPaddingIsInert | src/modulators/constallation_mappers.py:89-93 | the extra all-zero pair of even-length data changes neither branch train, for any pulse shape |

## Left out

- Logging, verbosity and `print` calls in `ssrg`, `gold_seq`, `rect_tr` and the script are not
  modelled. With verbosity on, `gold_seq` prints `shft_reg_2[x1]` and `shft_reg_2[x2]` rather than
  `x1 - 1`, so x1 = 10 would then raise IndexError. That path exists only in printing, so it is
  not modelled.
- Floating point: `build_srm` starts from a float identity, so `srm**n` loses precision for large n.
  The model computes M^n with exact integers as M · M^(n-1); numpy's repeated squaring gives the
  same exact value. Time axes and trains are exact reals.
- `sinc_p` and `rcos_p` (`src/siggens/one_pulse.py`) are not modelled; the trains take them as
  function parameters. That includes the unguarded division by zero in `rcos_p`.
- PrnBitstreams.OneStep, PrnBitstreams.PowStep, RunSsrg.Recursion: `np.matrix` column shapes are
  not modelled, and vectors are plain sequences. These members require a square matrix whose size
  matches the state, which every caller in the source passes. The source's error paths for other
  shapes are left out: the `np.matrix` product raises ValueError when the state length does not
  match, and `srm**n` raises LinAlgError for a non-square matrix.
- PrnBitstreams.BuildSrm: the source accepts the feedback only as a 2-D 1 x L row. Its last
  `np.append(..., axis=0)` joins the feedback to a 2-D matrix (`src/siggens/PRN_bitstreams.py:20`),
  so a plain 1-D array of any length raises ValueError. The model has no such failure: its only
  error is the empty vector. `ssrg` and `gold_seq` take the feedback as a 1-D array
  (`src/siggens/PRN_bitstreams.py:59`, `:90-91`), so the same feedback object does not fit both.
  `ShiftInIsMatrixStep`, `RegisterAfterIsPowStep` and `RegisterAfterMod2IsPowStep` relate `ssrg` to
  `build_srm` through the model's shapeless vectors, that is, for the same entries in either shape.
- Conversions by `int(...)` of the `n_bits`, `no_bits` and `no_periods` arguments are not modelled;
  the arguments are already integers.
- No period of maximal-length sequences is stated, because the code does not promise one.
- TrainPulse.RectTr: for an empty code numpy returns a boolean array of False; the model returns
  0.0 samples. Any non-empty code turns the accumulator numeric, as in the model.
- ConstellationMappers.Width: the zero-rate failure models Python numbers, where `1 / 0` raises
  ZeroDivisionError. A numpy floating zero rate would give inf with a warning instead.
- ConstellationMappers.RectBpskMap: the +-1 levels are stated, in `RectBpskLevels`, only for 0/1
  data, the binary sequence the mapper documents. For other data the real part is only shown to be
  >= -1.
- ConstellationMappers.SincQpskMap, ConstellationMappers.RcosQpskMap: the pulse shapes are
  abstract. So the levels are tied to the branch trains, and each bit is placed by
  `SincQpskPlacement`/`RcosQpskPlacement`, but exact +-1 levels as for the rectangular mapper
  cannot be stated.
- PrnBitstreams.PowStep, RunSsrg.Recursion: the step count is a natural number. For a negative n
  the source behaves differently. `srm**n` on an `np.matrix` inverts the matrix, and raises
  LinAlgError when it is singular, i.e. when the last feedback entry is 0
  (`src/siggens/PRN_bitstreams.py:32`, `src/run.py:58`). `proceed_ssrg_recursion` never meets its
  base cases and recurses until RecursionError (`src/run.py:49-54`).
- RunSsrg.Recursion, RunSsrg.RecursionIsPowStep: the model has no call-depth limit.
  `proceed_ssrg_recursion` calls itself once per step (`src/run.py:48-54`). So for n near or above
  Python's default recursion limit (about 1000) the source raises RecursionError instead of
  returning. That includes n = 1023, one Gold code period, and n = 3000, the step count the driver
  runs (`src/run.py:27`, where it uses the one-step form). Equality with the power advance
  therefore holds in the source only below that depth.
- TrainPulse.RcosTr, ConstellationMappers.RcosBpskMap, ConstellationMappers.RcosQpskMap: the pulse
  is any real-valued function. In numpy, `rcos_p` divides by 1 - 4 (beta (t - t0))^2 with
  beta = alpha / pw (`src/siggens/one_pulse.py:82-83`). Where that is zero the pulse is +-inf, and
  a 0 symbol turns it into NaN (inf * 0), which `np.maximum` passes on
  (`src/siggens/train_pulse.py:70`). At such samples the source's train is NaN, so the bounds >= 0
  and >= -1 do not hold there.
- Outside the modelled core: FFT correlation (`src/dsp/corrNumpy.py`), carrier up-conversion
  (`src/modulators/up_convertors.py`) and frequency axes (`src/utils/freqaxis_shape.py`). Also
  configuration and command line (`src/utils/setup.py`, `src/setup.py`), `main` and `write_csv` in
  `src/run.py`, CSV interfaces and plotting. These are file I/O, floating-point signal processing or
  plotting.

## Findings

| source | as written | input that shows it | evidently intended | confidence | as-written member | corrected member |
|---|---|---|---|---|---|---|
| src/siggens/ssrg_script.py:15 | the copy of `ssrg` rolls the register by -1 before cell 0 receives the feedback bit, so cells move towards the front and the old cell 0 lands in the last cell | init [1, 0, 0], feedback [1, 0, 1], n_bits 3: after one pass the script holds [1, 0, 1] and emits 1 as its second value, where the shift register of `build_srm` holds [1, 1, 0] and emits 0 | roll by +1 as in `src/siggens/PRN_bitstreams.py:61`, so that the loop is the matrix step of `build_srm` | medium, not executed | SsrgScript.ScriptDiffersFromShiftRegister | PrnBitstreams.RegisterAfterIsPowStep |
