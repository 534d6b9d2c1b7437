/**
 * The threshold revision of the decoder, bm-cw-decoder-tf.js. Despite the
 * file name it uses no TensorFlow (the classifier revision is
 * bm-cw-decoder.js). The dit is the shortest tone, blended with the mean dit
 * of earlier decodes; a tone is a dot below 1.7 dits; a gap above 2.5 dits
 * and below 3 dahs ends a letter, one of 3 dahs or more ends a word.
 */
module DecoderThreshold {
  import opened Timing
  import opened Envelope
  import opened MorseText
  import opened DecodeLog

  const MicThreshold: real := 0.09
  const MicSpanLimit: real := 15000.0
  const KeySpanLimit: real := 20000.0
  /** Live captures time tones with `performance.now()`, in milliseconds. */
  const MillisPerSecond: real := 1000.0
  const BlendWindow: real := 0.05
  const DashRatio: real := 1.7
  const LetterGapRatio: real := 2.5

  /** One `trainingData` entry: `{dit, dah, wpm, morse, decoded, time}`. */
  datatype Record = Record(dit: Ext, dah: Ext, wpm: Ext, morse: string, decoded: string, time: real)

  /** What the page clock says when a decode finishes: `getUTC()` and `Date.now()`. */
  datatype Stamp = Stamp(utc: string, millis: real)

  /** `trainingData.map(d => d.dit)`. */
  function Dits(history: seq<Record>): (ds: seq<Ext>)
    ensures |ds| == |history|
    ensures forall k :: 0 <= k < |history| ==> ds[k] == history[k].dit
  {
    seq(|history|, k requires 0 <= k < |history| => history[k].dit)
  }

  /** `a + b` in JavaScript, where a +Infinity operand makes the sum +Infinity. */
  function Add(a: Ext, b: Ext): (s: Ext)
    ensures s.PosInf? <==> a.PosInf? || b.PosInf?
    ensures a.Fin? && b.Fin? ==> s.v == a.v + b.v
  {
    if a.Fin? && b.Fin? then Fin(a.v + b.v) else PosInf
  }

  /** `ditArr.reduce((a, b) => a + b, 0)`. */
  function Sum(ds: seq<Ext>): (s: Ext)
    ensures s == PosInf <==> PosInf in ds
  {
    if |ds| == 0 then Fin(0.0) else Add(ds[0], Sum(ds[1..]))
  }

  /** The historical average dit, `sum / ditArr.length`. */
  function Mean(ds: seq<Ext>): Ext
    requires |ds| > 0
  {
    match Sum(ds)
    case Fin(s) => Fin(s / |ds| as real)
    case PosInf => PosInf
  }

  /**
   * The blending rule: the historical mean replaces the fresh dit exactly
   * when there is history, the mean is a nonzero finite number and lies
   * within 0.05 of the fresh dit; otherwise the fresh dit stays.
   */
  function Blend(dit: Ext, history: seq<Ext>): (r: Ext)
    ensures r == dit || (|history| > 0 && r == Mean(history))
    ensures (|history| > 0 && Mean(history).Fin? && Mean(history).v != 0.0
             && dit.Fin? && Abs(Mean(history).v - dit.v) < BlendWindow) ==> r == Mean(history)
    ensures r != dit ==> r.Fin? && r.v != 0.0 && dit.Fin? && Abs(r.v - dit.v) < BlendWindow
    ensures r.PosInf? <==> dit.PosInf?
  {
    if |history| > 0 then
      var avg := Mean(history);
      if avg.Fin? && avg.v != 0.0 && dit.Fin? && Abs(avg.v - dit.v) < BlendWindow then avg else dit
    else dit
  }

  /**
   * The blending step of `decodeTimings`: with stored records, the mean
   * stored dit replaces a fresh dit it lies close to, and the dah is
   * recomputed; without records both stay.
   */
  method BlendWithHistory(dit: Ext, dah: Ext, history: seq<Record>) returns (dit': Ext, dah': Ext)
    requires dah == Scale(dit, 3.0)
    ensures dit' == Blend(dit, Dits(history)) && dah' == Scale(dit', 3.0)
  {
    dit', dah' := dit, dah;
    if |history| > 0 {
      var avgDit := Mean(Dits(history));
      if avgDit.Fin? && avgDit.v != 0.0 && dit.Fin? && Abs(avgDit.v - dit.v) < BlendWindow {
        dit' := avgDit;
      }
      dah' := Scale(dit', 3.0);
    }
  }

  /** Dot below 1.7 dits, dash otherwise. */
  function Symbol(duration: real, dit: real): char
  {
    if duration < dit * DashRatio then '.' else '-'
  }

  /** What one iteration of the morse loop appends for tone `i`. */
  function ToneCode(durs: seq<real>, gaps: seq<real>, i: nat, dit: real, dah: real): string
    requires i < |durs|
  {
    [Symbol(durs[i], dit)] + Separator(GapAfter(gaps, i), dit * LetterGapRatio, dah * 3.0)
  }

  /** The morse string after the first `n` iterations of the loop. */
  function MorseOf(durs: seq<real>, gaps: seq<real>, dit: real, dah: real, n: nat): string
    requires n <= |durs|
  {
    if n == 0 then "" else MorseOf(durs, gaps, dit, dah, n - 1) + ToneCode(durs, gaps, n - 1, dit, dah)
  }

  /** Each tone contributes exactly one '.' or '-', whatever its gap. */
  lemma {:induction false} MorseSymbolCount(durs: seq<real>, gaps: seq<real>, dit: real, dah: real, n: nat)
    requires n <= |durs|
    ensures SymbolCount(MorseOf(durs, gaps, dit, dah, n)) == n
  {
    if n > 0 {
      MorseSymbolCount(durs, gaps, dit, dah, n - 1);
      var sep := Separator(GapAfter(gaps, n - 1), dit * LetterGapRatio, dah * 3.0);
      SeparatorHasNoSymbols(GapAfter(gaps, n - 1), dit * LetterGapRatio, dah * 3.0);
      SymbolCountAppend([Symbol(durs[n - 1], dit)], sep);
      assert SymbolCount([Symbol(durs[n - 1], dit)]) == 1 by {
        assert [Symbol(durs[n - 1], dit)][1..] == [];
      }
      SymbolCountAppend(MorseOf(durs, gaps, dit, dah, n - 1), ToneCode(durs, gaps, n - 1, dit, dah));
    }
  }

  /** The `morse +=` statements of one iteration: the tone's symbol, then its separator. */
  method AppendToneCode(morse: string, duration: real, gap: real, dit: real, dah: real) returns (m: string)
    ensures m == morse + [Symbol(duration, dit)] + Separator(gap, dit * LetterGapRatio, dah * 3.0)
  {
    m := morse + [if duration < dit * DashRatio then '.' else '-'];
    if gap > dit * LetterGapRatio && gap < dah * 3.0 {
      m := m + " ";
    }
    if gap >= dah * 3.0 {
      m := m + " / ";
    }
  }

  /** The morse loop of `decodeTimings`. */
  method BuildMorse(durs: seq<real>, gaps: seq<real>, dit: real, dah: real) returns (morse: string)
    ensures morse == MorseOf(durs, gaps, dit, dah, |durs|)
    ensures SymbolCount(morse) == |durs|
  {
    morse := "";
    var i := 0;
    while i < |durs|
      invariant 0 <= i <= |durs|
      invariant morse == MorseOf(durs, gaps, dit, dah, i)
    {
      var gap := GapAfter(gaps, i);  // `gaps[i] || 0`
      morse := AppendToneCode(morse, durs[i], gap, dit, dah);
      Assoc(MorseOf(durs, gaps, dit, dah, i), [Symbol(durs[i], dit)], Separator(gap, dit * LetterGapRatio, dah * 3.0));
      i := i + 1;
    }
    MorseSymbolCount(durs, gaps, dit, dah, |durs|);
  }

  /**
   * With dah = 3 dit: a letter separator follows a tone exactly when
   * 2.5 dit < gap < 9 dit, a word separator exactly when gap >= 9 dit,
   * never both; with dit > 0 nothing follows the last tone, whose gap is 0.
   */
  lemma Separators(durs: seq<real>, gaps: seq<real>, dit: real, i: nat)
    requires i < |durs| && |gaps| == |durs| - 1
    ensures var sep := ToneCode(durs, gaps, i, dit, 3.0 * dit)[1..];
      && (sep == " " <==> dit * 2.5 < GapAfter(gaps, i) < dit * 9.0)
      && (sep == " / " <==> GapAfter(gaps, i) >= dit * 9.0)
      && (dit > 0.0 && i == |durs| - 1 ==> sep == "")
  {
    var sep := Separator(GapAfter(gaps, i), dit * LetterGapRatio, 3.0 * dit * 3.0);
    assert ToneCode(durs, gaps, i, dit, 3.0 * dit)[1..] == sep;
  }

  /** `{dit, dah, wpm, morse, decoded}` of one decode pass. */
  datatype Outcome = Outcome(dit: Ext, dah: Ext, wpm: Ext, morse: string, decoded: string)

  /** What `decodeTimings(times, sampleRate)` computes, given the stored records. */
  function Decode(table: map<string, char>, times: seq<Interval>, rate: real, history: seq<Record>): (o: Outcome)
    requires rate > 0.0
    ensures o.dit.PosInf? <==> |times| == 0
    ensures o.dah == Scale(o.dit, 3.0)
    ensures o.wpm == WpmOf(MinDuration(Durations(times, rate)))
    ensures |times| > 0 ==> Abs(o.dit.v - MinDuration(Durations(times, rate)).v) < BlendWindow
    ensures SymbolCount(o.morse) == |times|
    ensures o.decoded == DecodeMorse(table, o.morse)
  {
    var durs := Durations(times, rate);
    var gaps := Gaps(times, rate);
    var shortest := MinDuration(durs);
    var dit := Blend(shortest, Dits(history));
    var dah := Scale(dit, 3.0);
    var morse := MorseOf(durs, gaps, DitValue(dit), DitValue(dah), |durs|);
    MorseSymbolCount(durs, gaps, DitValue(dit), DitValue(dah), |durs|);
    assert |durs| == |times| && SymbolCount(morse) == |times|;
    assert dit.PosInf? <==> |times| == 0;
    Outcome(dit, dah, WpmOf(shortest), morse, DecodeMorse(table, morse))
  }

  /**
   * With no tones the pass yields an empty morse string, a wpm of 0 and,
   * when the table has no entry for the empty group, the text "?".
   */
  lemma DecodeNothing(table: map<string, char>, rate: real, history: seq<Record>)
    requires rate > 0.0 && "" !in table
    ensures Decode(table, [], rate, history).morse == ""
    ensures Decode(table, [], rate, history).wpm == Fin(0.0)
    ensures Decode(table, [], rate, history).decoded == "?"
  {
    EmptyMorse(table);
  }

  /** Without stored records the dit is the shortest tone, and the tone loop writes a dot for it. */
  lemma ShortestToneIsDot(table: map<string, char>, times: seq<Interval>, rate: real, i: nat)
    requires rate > 0.0 && i < |times|
    requires MinDuration(Durations(times, rate)) == Fin(Durations(times, rate)[i])
    requires Durations(times, rate)[i] > 0.0
    ensures Decode(table, times, rate, []).dit == Fin(Durations(times, rate)[i])
    ensures ToneCode(Durations(times, rate), Gaps(times, rate), i,
                     DitValue(Decode(table, times, rate, []).dit),
                     DitValue(Decode(table, times, rate, []).dah))[0] == '.'
  {
    var d := Durations(times, rate)[i];
    assert Blend(Fin(d), []) == Fin(d);
    assert d < d * DashRatio;
  }

  /** Half a dit is a dot, five dits a dash, and the switch lies at exactly 1.7 dits. */
  lemma DotDashSplit(dit: real)
    requires dit > 0.0
    ensures Symbol(0.5 * dit, dit) == '.' && Symbol(5.0 * dit, dit) == '-'
    ensures Symbol(1.7 * dit, dit) == '-'
    ensures forall d :: Symbol(d, dit) == '.' <==> d < 1.7 * dit
  {
  }

  /** Four back-to-back tones of 50, 50, 150 and 50 ms. */
  const LetterFTimes: seq<Interval> :=
    [Interval(0.0, 50.0), Interval(50.0, 100.0), Interval(100.0, 250.0), Interval(250.0, 300.0)]

  lemma LetterFTimings()
    ensures Durations(LetterFTimes, MillisPerSecond) == [0.05, 0.05, 0.15, 0.05]
    ensures Gaps(LetterFTimes, MillisPerSecond) == [0.0, 0.0, 0.0]
    ensures MinDuration(Durations(LetterFTimes, MillisPerSecond)) == Fin(0.05)
  {
    var durs := Durations(LetterFTimes, MillisPerSecond);
    assert durs == [0.05, 0.05, 0.15, 0.05];
    assert durs[1..] == [0.05, 0.15, 0.05];
    assert durs[1..][1..] == [0.15, 0.05];
    assert durs[1..][1..][1..] == [0.05];
  }

  lemma LetterFMorse(durs: seq<real>, gaps: seq<real>)
    requires durs == [0.05, 0.05, 0.15, 0.05] && gaps == [0.0, 0.0, 0.0]
    ensures MorseOf(durs, gaps, 0.05, 0.15, 4) == "..-."
  {
    assert Separator(0.0, 0.05 * LetterGapRatio, 0.15 * 3.0) == "";
    assert MorseOf(durs, gaps, 0.05, 0.15, 1) == ".";
    assert MorseOf(durs, gaps, 0.05, 0.15, 2) == "..";
    assert MorseOf(durs, gaps, 0.05, 0.15, 3) == "..-";
  }

  /**
   * Those tones decoded with no stored records: the dit is 50 ms, the third
   * tone is a dash, no gap separates them, and the text is the table's
   * letter for "..-.".
   */
  lemma DecodeLetterF(table: map<string, char>)
    requires "..-." in table && table["..-."] == 'F'
    ensures Decode(table, LetterFTimes, MillisPerSecond, []).dit == Fin(0.05)
    ensures Decode(table, LetterFTimes, MillisPerSecond, []).morse == "..-."
    ensures Decode(table, LetterFTimes, MillisPerSecond, []).decoded == "F"
  {
    LetterFTimings();
    LetterFMorse(Durations(LetterFTimes, MillisPerSecond), Gaps(LetterFTimes, MillisPerSecond));
    assert Blend(Fin(0.05), Dits([])) == Fin(0.05);
    assert Split("..-.", WordSep) == ["..-."] by {
      assert Marker(WordSep, 1) by { assert WordSep[..1] == " "; }
      SplitWithoutMarker("..-.", WordSep, 1);
    }
    assert Split("..-.", LetterSep) == ["..-."] by {
      assert Marker(LetterSep, 0);
      SplitWithoutMarker("..-.", LetterSep, 0);
    }
  }

  /** The page's global state in this revision. */
  class Session {
    const table: map<string, char>
    var decoding: bool
    var log: string
    var wpm: Ext
    var trainingData: seq<Record>
    var micToneOn: bool
    var micToneStart: Option<real>
    var micTimings: seq<Interval>
    /** Whether the Spacebar handlers are installed on the page. */
    var keyListening: bool
    var keyPressStart: Option<real>
    var keyTimings: seq<Interval>
    /** The latest `performance.now()` reading a handler has seen; it never goes back. */
    ghost var clock: real

    /**
     * Both live captures are in time order and end by `clock`; an open mic
     * tone or a pending key press began after every recorded interval.
     */
    ghost predicate Valid()
      reads this`micTimings, this`micToneOn, this`micToneStart, this`keyTimings, this`keyPressStart, this`clock
    {
      && (micToneOn ==> micToneStart.Some?)
      && CaptureInOrder(micTimings, if micToneOn then micToneStart else None, clock)
      && CaptureInOrder(keyTimings, keyPressStart, clock)
    }

    /** Page load: the log and the training records come from storage. */
    constructor (morseMap: map<string, char>, storedLog: string, storedTraining: seq<Record>)
      ensures Valid()
      ensures table == morseMap && log == storedLog && trainingData == storedTraining
      ensures !decoding && !keyListening && wpm == Fin(0.0)
      ensures !micToneOn && micToneStart == None && micTimings == []
      ensures keyPressStart == None && keyTimings == []
    {
      table := morseMap;
      decoding := false;
      log := storedLog;
      wpm := Fin(0.0);
      trainingData := storedTraining;
      micToneOn := false;
      micToneStart := None;
      micTimings := [];
      keyListening := false;
      keyPressStart := None;
      keyTimings := [];
      clock := 0.0;
    }

    /**
     * A decode pass over `times` has run on a page whose log and training
     * store were `log0` and `data0`: one log line and one training record more.
     */
    predicate Decoded(log0: string, data0: seq<Record>, times: seq<Interval>, rate: real, stamp: Stamp)
      requires rate > 0.0
      reads this
    {
      var o := Decode(table, times, rate, data0);
      && log == log0 + LogLine(stamp.utc, o.decoded)
      && wpm == o.wpm
      && trainingData == data0 + [Record(o.dit, o.dah, o.wpm, o.morse, o.decoded, stamp.millis)]
    }

    /** Nothing was stopped or decoded. */
    twostate predicate Undecoded()
      reads this
    {
      && decoding == old(decoding) && keyListening == old(keyListening)
      && log == old(log) && wpm == old(wpm) && trainingData == old(trainingData)
    }

    /** The Start button: ignored while decoding, otherwise begins decoding. */
    method Start() returns (started: bool)
      requires Valid()
      modifies this`decoding
      ensures Valid()
      ensures started == !old(decoding)
      ensures decoding
    {
      if decoding {
        return false;
      }
      decoding := true;
      started := true;
    }

    /** `stopDecoding`: clears the flag and removes the Spacebar handlers. */
    method StopDecoding()
      requires Valid()
      modifies this`decoding, this`keyListening
      ensures Valid()
      ensures !decoding && !keyListening
    {
      decoding := false;
      keyListening := false;
    }

    /** `startMicrophone`: the tone state is reset; a refused microphone stops decoding. */
    method StartMicrophone(granted: bool)
      requires Valid()
      modifies this`micToneOn, this`micToneStart, this`micTimings, this`decoding, this`keyListening
      ensures Valid()
      ensures !micToneOn && micToneStart == None && micTimings == []
      ensures if granted then decoding == old(decoding) && keyListening == old(keyListening)
              else !decoding && !keyListening
    {
      if !granted {
        StopDecoding();
      }
      micToneOn := false;
      micToneStart := None;
      micTimings := [];
    }

    /** `processMicAmplitude(amp)`, with `performance.now()` as `now`. */
    method ProcessMicAmplitude(amp: real, now: real, stamp: Stamp)
      requires Valid() && now >= clock
      modifies this`micToneOn, this`micToneStart, this`micTimings, this`decoding, this`keyListening
      modifies this`log, this`wpm, this`trainingData, this`clock
      ensures Valid() && clock == now
      ensures if amp > MicThreshold && !old(micToneOn) then
                micToneOn && micToneStart == Some(now) && micTimings == old(micTimings) && Undecoded()
              else if amp < MicThreshold && old(micToneOn) then
                && !micToneOn && micToneStart == old(micToneStart)
                && micTimings == old(micTimings) + [Interval(old(micToneStart).value, now)]
                && if ShouldStop(micTimings, MicSpanLimit) then
                     !decoding && !keyListening && Decoded(old(log), old(trainingData), micTimings, MillisPerSecond, stamp)
                   else Undecoded()
              else
                && micToneOn == old(micToneOn) && micToneStart == old(micToneStart)
                && micTimings == old(micTimings) && Undecoded()
    {
      clock := now;
      if amp > MicThreshold && !micToneOn {
        micToneStart := Some(now);
        micToneOn := true;
      } else if amp < MicThreshold && micToneOn {
        CloseInOrder(micTimings, micToneStart.value, clock, now);
        var timings := micTimings + [Interval(micToneStart.value, now)];
        micTimings := timings;
        micToneOn := false;
        if ShouldStop(timings, MicSpanLimit) {
          StopAndDecode(timings, MillisPerSecond, stamp);
        }
      }
    }

    /** `startKeyboard`: clears the key timings and installs the Spacebar handlers. */
    method StartKeyboard()
      requires Valid()
      modifies this`keyTimings, this`keyPressStart, this`keyListening
      ensures Valid()
      ensures keyTimings == [] && keyPressStart == None && keyListening
    {
      keyTimings := [];
      keyPressStart := None;
      keyListening := true;
    }

    /** The `onkeydown` handler: a Spacebar press is timed only when none is pending and decoding is on. */
    method KeyDown(code: string, now: real)
      requires Valid() && now >= clock
      modifies this`keyPressStart, this`clock
      ensures Valid() && clock == now
      ensures keyPressStart ==
        if keyListening && code == "Space" && old(keyPressStart).None? && decoding then Some(now)
        else old(keyPressStart)
    {
      clock := now;
      if keyListening && code == "Space" && keyPressStart.None? && decoding {
        keyPressStart := Some(now);
      }
    }

    /** The `onkeyup` handler: a pending Spacebar press becomes a tone; 80 tones or 20 s end the capture. */
    method KeyUp(code: string, now: real, stamp: Stamp)
      requires Valid() && now >= clock
      modifies this`keyPressStart, this`keyTimings, this`decoding, this`keyListening
      modifies this`log, this`wpm, this`trainingData, this`clock
      ensures Valid() && clock == now
      ensures if old(keyListening) && code == "Space" && old(keyPressStart).Some? && old(decoding) then
                && keyPressStart == None
                && keyTimings == old(keyTimings) + [Interval(old(keyPressStart).value, now)]
                && if ShouldStop(keyTimings, KeySpanLimit) then
                     !decoding && !keyListening && Decoded(old(log), old(trainingData), keyTimings, MillisPerSecond, stamp)
                   else Undecoded()
              else keyPressStart == old(keyPressStart) && keyTimings == old(keyTimings) && Undecoded()
    {
      clock := now;
      if keyListening && code == "Space" && keyPressStart.Some? && decoding {
        CloseInOrder(keyTimings, keyPressStart.value, clock, now);
        var timings := keyTimings + [Interval(keyPressStart.value, now)];
        keyTimings := timings;
        keyPressStart := None;
        if ShouldStop(timings, KeySpanLimit) {
          StopAndDecode(timings, MillisPerSecond, stamp);
        }
      }
    }

    /** `decodeWavFile` once the audio is decoded: envelope detection, stop, decode. */
    method DecodeWav(data: array<real>, sampleRate: real, stamp: Stamp)
      requires sampleRate > 0.0 && Valid()
      ensures Valid()
      modifies this`decoding, this`keyListening, this`log, this`wpm, this`trainingData
      ensures !decoding && !keyListening
      ensures Decoded(old(log), old(trainingData), Tones(data[..]), sampleRate, stamp)
    {
      var times := DetectTones(data);
      StopAndDecode(times, sampleRate, stamp);
    }

    /** `stopDecoding(); decodeTimings(times, rate)`, the closing pair of every capture. */
    method StopAndDecode(times: seq<Interval>, rate: real, stamp: Stamp)
      requires rate > 0.0 && Valid()
      ensures Valid()
      modifies this`decoding, this`keyListening, this`log, this`wpm, this`trainingData
      ensures !decoding && !keyListening
      ensures Decoded(old(log), old(trainingData), times, rate, stamp)
    {
      StopDecoding();
      DecodeTimings(times, rate, stamp);
    }

    /** `decodeTimings(times, sampleRate)`. */
    method DecodeTimings(times: seq<Interval>, rate: real, stamp: Stamp)
      requires rate > 0.0
      modifies this`log, this`wpm, this`trainingData
      ensures Decoded(old(log), old(trainingData), times, rate, stamp)
    {
      var durations := Durations(times, rate);
      var gaps := ComputeGaps(times, rate);
      var dit := MinDuration(durations);
      var dah := Scale(dit, 3.0);
      wpm := WpmOf(dit);
      dit, dah := BlendWithHistory(dit, dah, trainingData);
      var morse := BuildMorse(durations, gaps, DitValue(dit), DitValue(dah));
      var decoded := DecodeMorse(table, morse);
      log := log + LogLine(stamp.utc, decoded);
      trainingData := trainingData + [Record(dit, dah, wpm, morse, decoded, stamp.millis)];
    }

    /** The Clear button. */
    method ClearLog()
      requires Valid()
      modifies this`log
      ensures Valid()
      ensures log == ""
    {
      log := "";
    }
  }
}
