/**
 * The rectangular pulse `rect_p` of `src/siggens/one_pulse.py`: an open-interval
 * indicator over a time axis. Time values are exact reals.
 */
module OnePulse {

  /** One sample of `rect_p`: 1 strictly between the two edges, 0 everywhere else. */
  function RectAt(tk: real, tStart: real, tEnd: real): (v: int)
    ensures v == 0 || v == 1
    ensures v == 1 <==> tStart < tk < tEnd
  {
    if tStart < tk && tk < tEnd then 1 else 0
  }

  /**
   * `rect_p`: the indicator applied to every sample of the time axis. The edges
   * themselves are outside the pulse, so an empty or inverted interval gives
   * no pulse at all.
   */
  function RectP(t: seq<real>, tStart: real, tEnd: real): (p: seq<int>)
    ensures |p| == |t|
    ensures forall k :: 0 <= k < |t| ==> (p[k] == 0 || p[k] == 1)
    ensures forall k :: 0 <= k < |t| ==> (p[k] == 1 <==> tStart < t[k] < tEnd)
    ensures forall k :: 0 <= k < |t| && (t[k] == tStart || t[k] == tEnd) ==> p[k] == 0
    ensures tStart >= tEnd ==> forall k :: 0 <= k < |t| ==> p[k] == 0
  {
    seq(|t|, k requires 0 <= k < |t| => RectAt(t[k], tStart, tEnd))
  }
}
