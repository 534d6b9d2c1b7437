/**
 * Timing vocabulary shared by both decoder revisions: tone intervals, the
 * durations and gaps derived from them, the shortest-tone dit estimate, the
 * words-per-minute formula, the capture safeguard and the gap separator rule.
 */
module Timing {

  datatype Option<T> = None | Some(value: T)

  /** One tone `{start, end}`, in sample indices (WAV) or milliseconds (mic, keyboard). */
  datatype Interval = Interval(start: real, end: real)

  /**
   * A JavaScript number that is finite or +Infinity. `Math.min()` of no
   * arguments is +Infinity, and `1.2 / 0` is +Infinity too.
   */
  datatype Ext = Fin(v: real) | PosInf

  function Abs(x: real): real { if x < 0.0 then -x else x }

  /** `e * k` for a positive constant `k`. */
  function Scale(e: Ext, k: real): (r: Ext)
    requires k > 0.0
    ensures r.PosInf? <==> e.PosInf?
    ensures e.Fin? ==> r.v == e.v * k
  {
    match e
    case Fin(v) => Fin(v * k)
    case PosInf => PosInf
  }

  /** The finite value of a dit, or 0 when it is +Infinity (then there are no tones). */
  function DitValue(e: Ext): real
  {
    match e
    case Fin(v) => v
    case PosInf => 0.0
  }

  /** Tones are well formed and follow each other without overlap. */
  predicate Ordered(ts: seq<Interval>)
  {
    && (forall i :: 0 <= i < |ts| ==> ts[i].start < ts[i].end)
    && (forall i :: 0 < i < |ts| ==> ts[i - 1].end < ts[i].start)
  }

  /**
   * The intervals of a live capture in time order: each ends no earlier than
   * it starts and no later than the next one starts. Unlike `Ordered`, a
   * zero-length tone and touching intervals are allowed, since two handler
   * calls may read the same clock value.
   */
  predicate Chronological(ts: seq<Interval>)
  {
    if |ts| == 0 then true
    else ts[0].start <= ts[0].end && (|ts| == 1 || ts[0].end <= ts[1].start) && Chronological(ts[1..])
  }

  /** The capture has ended by the time `t`: its last interval ends no later. */
  predicate EndsBy(ts: seq<Interval>, t: real)
  {
    |ts| == 0 || ts[|ts| - 1].end <= t
  }

  /**
   * What time order means: no interval ends before it starts, none ends after
   * a later one starts, and none ends after the last one.
   */
  lemma {:induction false} ChronologicalOrder(ts: seq<Interval>)
    requires Chronological(ts)
    ensures forall k :: 0 <= k < |ts| ==> ts[k].start <= ts[k].end
    ensures forall j, k :: 0 <= j < k < |ts| ==> ts[j].end <= ts[k].start
    ensures forall k :: 0 <= k < |ts| ==> ts[k].end <= ts[|ts| - 1].end
  {
    if |ts| > 1 {
      var rest := ts[1..];
      ChronologicalOrder(rest);
      forall j, k | 0 <= j < k < |ts|
        ensures ts[j].end <= ts[k].start
      {
        if j > 0 {
          assert ts[j] == rest[j - 1] && ts[k] == rest[k - 1];
        } else if k > 1 {
          assert ts[1] == rest[0] && ts[k] == rest[k - 1];
        }
      }
      forall k | 0 <= k < |ts|
        ensures ts[k].end <= ts[|ts| - 1].end
      {
        if k > 0 {
          assert ts[k] == rest[k - 1] && ts[|ts| - 1] == rest[|rest| - 1];
        } else {
          assert ts[0].end <= ts[|ts| - 1].start;
        }
      }
    }
  }

  /** Pushing an interval that starts once the capture has ended keeps it in time order. */
  lemma {:induction false} PushChronological(ts: seq<Interval>, iv: Interval)
    requires Chronological(ts) && EndsBy(ts, iv.start) && iv.start <= iv.end
    ensures Chronological(ts + [iv]) && EndsBy(ts + [iv], iv.end)
  {
    if |ts| == 0 {
      assert ts + [iv] == [iv];
      assert [iv][1..] == [];
    } else {
      PushChronological(ts[1..], iv);
      assert (ts + [iv])[1..] == ts[1..] + [iv];
    }
  }

  /**
   * A live capture at time `clock`: its intervals are in time order and have
   * ended, and the tone still open, if any, began after all of them.
   */
  predicate CaptureInOrder(ts: seq<Interval>, open: Option<real>, clock: real)
  {
    && Chronological(ts) && EndsBy(ts, clock)
    && (open.Some? ==> EndsBy(ts, open.value) && open.value <= clock)
  }

  /** Closing the open tone at a time no earlier than the clock keeps the capture in order. */
  lemma CloseInOrder(ts: seq<Interval>, start: real, clock: real, now: real)
    requires CaptureInOrder(ts, Some(start), clock) && clock <= now
    ensures CaptureInOrder(ts + [Interval(start, now)], None, now)
  {
    PushChronological(ts, Interval(start, now));
  }

  /** `times.map(t => (t.end - t.start) / sampleRate)`. */
  function Durations(times: seq<Interval>, rate: real): (ds: seq<real>)
    requires rate > 0.0
    ensures |ds| == |times|
    ensures Ordered(times) ==> forall i :: 0 <= i < |ds| ==> ds[i] > 0.0
  {
    seq(|times|, i requires 0 <= i < |times| => (times[i].end - times[i].start) / rate)
  }

  /** The silences between consecutive tones, in the same unit as the durations. */
  function Gaps(times: seq<Interval>, rate: real): seq<real>
    requires rate > 0.0
  {
    if |times| <= 1 then []
    else seq(|times| - 1, i requires 0 <= i < |times| - 1 => (times[i + 1].start - times[i].end) / rate)
  }

  /** The gaps loop: one push per pair of neighbouring tones. */
  method ComputeGaps(times: seq<Interval>, rate: real) returns (gaps: seq<real>)
    requires rate > 0.0
    ensures |gaps| == if |times| == 0 then 0 else |times| - 1
    ensures forall i :: 0 <= i < |gaps| ==> gaps[i] == (times[i + 1].start - times[i].end) / rate
    ensures gaps == Gaps(times, rate)
  {
    gaps := [];
    var i := 1;
    while i < |times|
      invariant 1 <= i <= |times| || (|times| == 0 && i == 1)
      invariant |gaps| == i - 1
      invariant forall k :: 0 <= k < |gaps| ==> gaps[k] == (times[k + 1].start - times[k].end) / rate
    {
      gaps := gaps + [(times[i].start - times[i - 1].end) / rate];
      i := i + 1;
    }
  }

  /** `gaps[i] || 0`: the gap after tone `i`, which is 0 after the last tone. */
  function GapAfter(gaps: seq<real>, i: nat): real
  {
    if i < |gaps| then gaps[i] else 0.0
  }

  /** Between well-ordered tones every gap is positive, and the one after the last tone is 0. */
  lemma GapsShape(times: seq<Interval>, rate: real)
    requires rate > 0.0
    ensures |Gaps(times, rate)| == if |times| == 0 then 0 else |times| - 1
    ensures |times| > 0 ==> GapAfter(Gaps(times, rate), |times| - 1) == 0.0
    ensures Ordered(times) ==> forall i :: 0 <= i < |Gaps(times, rate)| ==> Gaps(times, rate)[i] > 0.0
  {
    if Ordered(times) && |times| > 1 {
      forall i | 0 <= i < |times| - 1
        ensures Gaps(times, rate)[i] > 0.0
      {
        assert times[i + 1 - 1].end < times[i + 1].start;
        var silence := times[i + 1].start - times[i].end;
        assert silence > 0.0;
        assert silence / rate > 0.0;
      }
    }
  }

  /** One step of time order: interval `i` is well formed and ends before its successor starts. */
  lemma {:induction false} ChronologicalAt(ts: seq<Interval>, i: nat)
    requires Chronological(ts) && i < |ts|
    ensures ts[i].start <= ts[i].end
    ensures i + 1 < |ts| ==> ts[i].end <= ts[i + 1].start
  {
    if i > 0 {
      ChronologicalAt(ts[1..], i - 1);
    }
  }

  /** A capture in time order has no negative duration. */
  lemma ChronologicalDurations(times: seq<Interval>, rate: real)
    requires rate > 0.0 && Chronological(times)
    ensures forall i :: 0 <= i < |times| ==> Durations(times, rate)[i] >= 0.0
  {
    forall i | 0 <= i < |times|
      ensures Durations(times, rate)[i] >= 0.0
    {
      ChronologicalAt(times, i);
      var length := times[i].end - times[i].start;
      assert length / rate >= 0.0;
    }
  }

  /** A capture in time order has no negative gap. */
  lemma ChronologicalGaps(times: seq<Interval>, rate: real)
    requires rate > 0.0 && Chronological(times)
    ensures forall i :: 0 <= i < |Gaps(times, rate)| ==> Gaps(times, rate)[i] >= 0.0
  {
    forall i | 0 <= i < |Gaps(times, rate)|
      ensures Gaps(times, rate)[i] >= 0.0
    {
      ChronologicalAt(times, i);
      var silence := times[i + 1].start - times[i].end;
      assert silence / rate >= 0.0;
    }
  }

  /** `Math.min(...durations)`: the shortest duration, or +Infinity when there is none. */
  function MinDuration(ds: seq<real>): (m: Ext)
    ensures m == PosInf <==> |ds| == 0
    ensures m.Fin? ==> m.v in ds && forall i :: 0 <= i < |ds| ==> m.v <= ds[i]
  {
    if |ds| == 0 then PosInf
    else
      match MinDuration(ds[1..])
      case PosInf => Fin(ds[0])
      case Fin(rest) => Fin(if ds[0] <= rest then ds[0] else rest)
  }

  /** `1.2 / dit`, the PARIS words-per-minute estimate (JavaScript: 1.2/Infinity is 0, 1.2/0 is Infinity). */
  function WpmOf(dit: Ext): (wpm: Ext)
    ensures dit == PosInf ==> wpm == Fin(0.0)
    ensures dit == Fin(0.0) ==> wpm == PosInf
    ensures dit.Fin? && dit.v != 0.0 ==> wpm.Fin? && wpm.v * dit.v == 1.2
  {
    match dit
    case PosInf => Fin(0.0)
    case Fin(d) => if d == 0.0 then PosInf else Fin(1.2 / d)
  }

  const MaxTones: nat := 80

  /**
   * The capture safeguard: more than 80 tones, or a span from the first
   * start to the last end beyond `limit` (15000 ms for the mic, 20000 ms for the keyboard).
   */
  predicate ShouldStop(ts: seq<Interval>, limit: real)
  {
    |ts| > MaxTones || (|ts| > 0 && ts[|ts| - 1].end - ts[0].start > limit)
  }

  /** The 81st tone always stops the capture; 80 tones inside the span limit never do. */
  lemma StopBoundary(ts: seq<Interval>, limit: real)
    ensures |ts| == MaxTones + 1 ==> ShouldStop(ts, limit)
    ensures |ts| <= MaxTones && (|ts| == 0 || ts[|ts| - 1].end - ts[0].start <= limit) ==> !ShouldStop(ts, limit)
  {
  }

  /**
   * Once the safeguard has fired on a list that is never cleared, the next
   * tone recorded at a later time fires it again at once.
   */
  lemma StopIsSticky(ts: seq<Interval>, t: Interval, limit: real)
    requires ShouldStop(ts, limit)
    requires |ts| > 0 && t.end >= ts[|ts| - 1].end
    ensures ShouldStop(ts + [t], limit)
  {
    var ts' := ts + [t];
    assert ts'[0] == ts[0];
    assert ts'[|ts'| - 1] == t;
  }

  /**
   * The separator appended after a tone: `' '` when `letterAbove < gap < wordFrom`,
   * then `' / '` when `gap >= wordFrom`, as two independent `if`s.
   */
  function Separator(gap: real, letterAbove: real, wordFrom: real): (sep: string)
    ensures sep == "" || sep == " " || sep == " / "
    ensures sep == " " <==> letterAbove < gap < wordFrom
    ensures sep == " / " <==> gap >= wordFrom
  {
    (if gap > letterAbove && gap < wordFrom then " " else "")
    + (if gap >= wordFrom then " / " else "")
  }

  /** Number of '.' and '-' in a Morse string. */
  function SymbolCount(s: string): nat
  {
    if |s| == 0 then 0
    else (if s[0] == '.' || s[0] == '-' then 1 else 0) + SymbolCount(s[1..])
  }

  lemma {:induction false} SymbolCountAppend(a: string, b: string)
    ensures SymbolCount(a + b) == SymbolCount(a) + SymbolCount(b)
  {
    if |a| == 0 {
      assert a + b == b;
    } else {
      assert (a + b)[1..] == a[1..] + b;
      SymbolCountAppend(a[1..], b);
    }
  }

  lemma Assoc<T>(a: seq<T>, b: seq<T>, c: seq<T>)
    ensures (a + b) + c == a + (b + c)
  {
  }

  /** A separator carries no dot or dash. */
  lemma SeparatorHasNoSymbols(gap: real, letterAbove: real, wordFrom: real)
    ensures SymbolCount(Separator(gap, letterAbove, wordFrom)) == 0
  {
    var sep := Separator(gap, letterAbove, wordFrom);
    if sep == " / " {
      assert SymbolCount(" ") == 0 by { assert " "[1..] == ""; }
      assert SymbolCount("/ ") == 0 by { assert "/ "[1..] == " "; }
      assert " / "[1..] == "/ ";
    } else if sep == " " {
      assert " "[1..] == "";
    }
  }
}
