/**
 * Envelope detection over a decoded WAV channel: a two-state scan that opens a
 * tone when |x| rises above 0.15 and closes it, emitting `{start, end}` in
 * sample indices, when |x| falls below 0.15. Both decoder revisions run the
 * same loop.
 */
module Envelope {
  import opened Timing

  const Threshold: real := 0.15

  /** The pair `(last, start)` of the loop: no tone, or a tone begun at `start`. */
  datatype Detector = Off | On(start: nat)

  /** One iteration of the loop at sample index `i`: the next state and the interval pushed, if any. */
  function Step(st: Detector, i: nat, x: real): (r: (Detector, Option<Interval>))
    ensures st == Off && Abs(x) > Threshold ==> r == (On(i), None)
    ensures st.On? && Abs(x) < Threshold ==> r == (Off, Some(Interval(st.start as real, i as real)))
    ensures Abs(x) == Threshold ==> r == (st, None)
    ensures r.1.Some? ==> st.On? && r.0 == Off && r.1.value == Interval(st.start as real, i as real)
    ensures r.0 != st ==> (st == Off && Abs(x) > Threshold) || (st.On? && Abs(x) < Threshold)
  {
    if Abs(x) > Threshold && st == Off then (On(i), None)
    else if Abs(x) < Threshold && st.On? then (Off, Some(Interval(st.start as real, i as real)))
    else (st, None)
  }

  /** The detector state and the intervals pushed after the first `n` samples. */
  function Scan(data: seq<real>, n: nat): (Detector, seq<Interval>)
    requires n <= |data|
  {
    if n == 0 then (Off, [])
    else
      var (st, ts) := Scan(data, n - 1);
      var (st', e) := Step(st, n - 1, data[n - 1]);
      (st', if e.Some? then ts + [e.value] else ts)
  }

  /** The intervals of the whole buffer; a tone still on at the end is dropped. */
  function Tones(data: seq<real>): seq<Interval>
  {
    Scan(data, |data|).1
  }

  /** Every interval lies inside the scanned prefix, ends before the open tone, and they are ordered. */
  predicate WellScanned(st: Detector, ts: seq<Interval>, n: nat)
  {
    && Ordered(ts)
    && (forall k :: 0 <= k < |ts| ==> 0.0 <= ts[k].start && ts[k].end < n as real)
    && (st.On? ==> st.start < n && forall k :: 0 <= k < |ts| ==> ts[k].end < st.start as real)
  }

  lemma {:induction false} ScanIsWellScanned(data: seq<real>, n: nat)
    requires n <= |data|
    ensures WellScanned(Scan(data, n).0, Scan(data, n).1, n)
  {
    if n > 0 {
      ScanIsWellScanned(data, n - 1);
      var (st, ts) := Scan(data, n - 1);
      var (st', e) := Step(st, n - 1, data[n - 1]);
      if e.Some? {
        var ts' := ts + [e.value];
        assert forall k :: 0 <= k < |ts| ==> ts'[k] == ts[k];
        assert ts'[|ts|] == Interval(st.start as real, (n - 1) as real);
      }
    }
  }

  /**
   * The intervals of a buffer are ordered and non-overlapping, with
   * start < end, all indices in [0, |data|); when the buffer ends inside a
   * tone, no interval reaches that tone.
   */
  lemma TonesAreOrdered(data: seq<real>)
    ensures Ordered(Tones(data))
    ensures forall k :: 0 <= k < |Tones(data)| ==>
      0.0 <= Tones(data)[k].start && Tones(data)[k].end < |data| as real
    ensures Scan(data, |data|).0.On? ==>
      forall k :: 0 <= k < |Tones(data)| ==> Tones(data)[k].end < Scan(data, |data|).0.start as real
  {
    ScanIsWellScanned(data, |data|);
  }

  /** The intervals found in a prefix stay: scanning further only appends. */
  lemma {:induction false} ScanGrows(data: seq<real>, m: nat, n: nat)
    requires m <= n <= |data|
    ensures Scan(data, m).1 <= Scan(data, n).1
    decreases n - m
  {
    if m < n {
      ScanGrows(data, m, n - 1);
    }
  }

  /** Once a sample has risen above the threshold, the scan is inside a tone or has pushed one. */
  lemma {:induction false} ScanAfterRise(data: seq<real>, a: nat, n: nat)
    requires a < n <= |data| && Abs(data[a]) > Threshold
    ensures Scan(data, n).0.On? || |Scan(data, n).1| > 0
  {
    if n > a + 1 {
      ScanAfterRise(data, a, n - 1);
    }
  }

  /**
   * The detector does fire: a sample above the threshold followed later by
   * one below it yields at least one tone.
   */
  lemma ToneIsDetected(data: seq<real>, a: nat, b: nat)
    requires a < b < |data| && Abs(data[a]) > Threshold && Abs(data[b]) < Threshold
    ensures |Tones(data)| > 0
  {
    ScanAfterRise(data, a, b);
    assert |Scan(data, b + 1).1| > 0;
    ScanGrows(data, b + 1, |data|);
  }

  /** The `for` loop of `decodeWavFile` over the channel data. */
  method DetectTones(data: array<real>) returns (times: seq<Interval>)
    ensures times == Tones(data[..])
    ensures Ordered(times)
    ensures forall k :: 0 <= k < |times| ==> 0.0 <= times[k].start && times[k].end < data.Length as real
  {
    var last := 0;
    var start: nat := 0;  // `null` until the first tone; read only while last == 1
    times := [];
    var i := 0;
    while i < data.Length
      invariant 0 <= i <= data.Length
      invariant last == 0 || last == 1
      invariant Scan(data[..], i) == (if last == 1 then On(start) else Off, times)
    {
      if Abs(data[i]) > Threshold && last == 0 {
        start := i;
        last := 1;
      } else if Abs(data[i]) < Threshold && last == 1 {
        times := times + [Interval(start as real, i as real)];
        last := 0;
      }
      i := i + 1;
    }
    TonesAreOrdered(data[..]);
  }
}
