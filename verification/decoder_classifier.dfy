/**
 * The classifier revision of the decoder (bm-cw-decoder.js): each tone's
 * (duration, gap) is scored by a trainable three-way classifier and the
 * first maximal score picks dot, dash or nothing; a gap above 2.5 dits and
 * below 6 dits ends a letter, one of 6 dits or more ends a word; every tone
 * becomes a training sample, and the classifier is refitted once there are
 * at least 6 samples. The network itself is not modelled: its answers are
 * a parameter.
 */
module DecoderClassifier {
  import opened Timing
  import opened Envelope
  import opened MorseText
  import opened DecodeLog

  const MicThreshold: real := 0.09
  const MicSpanLimit: real := 15000.0
  const KeySpanLimit: real := 20000.0
  /** Live captures time tones with `performance.now()`, in milliseconds. */
  const MillisPerSecond: real := 1000.0
  const LetterGapRatio: real := 2.5
  const WordGapRatio: real := 6.0
  const MinTrainingSamples: nat := 6

  /** One output of the classifier: a number, or NaN. */
  datatype Score = Num(v: real) | NaN

  /**
   * The trained network, seen only through what it answers: the scores it
   * returns for each `[duration, gap]` input. One decode pass asks about
   * finitely many inputs, so a table loses nothing for a pass.
   */
  datatype Classifier = Classifier(outputs: map<(real, real), seq<Score>>)

  /** `model.predict(tf.tensor2d([[d, g]]))`, read back as one array of scores; an input the table lacks gives none. */
  function Predict(c: Classifier, d: real, g: real): seq<Score>
  {
    if (d, g) in c.outputs then c.outputs[(d, g)] else []
  }

  /** One `trainingData` entry: `{duration, gap, label}`. */
  datatype Sample = Sample(duration: real, gap: real, labelIndex: int)

  /** `Math.max(...xs)` over numbers. */
  function MaxOf(xs: seq<real>): (m: real)
    requires |xs| > 0
    ensures m in xs
    ensures forall i :: 0 <= i < |xs| ==> xs[i] <= m
  {
    if |xs| == 1 then xs[0]
    else
      var rest := MaxOf(xs[1..]);
      if xs[0] >= rest then xs[0] else rest
  }

  /** `xs.indexOf(x)`: the first position holding `x`, or -1. */
  function IndexOf(xs: seq<real>, x: real): (k: int)
    ensures -1 <= k < |xs|
    ensures k >= 0 ==> xs[k] == x && forall j :: 0 <= j < k ==> xs[j] != x
    ensures k == -1 ==> x !in xs
  {
    if |xs| == 0 then -1
    else if xs[0] == x then 0
    else
      var k := IndexOf(xs[1..], x);
      if k == -1 then -1 else k + 1
  }

  /** The scores as numbers, or None when one of them is NaN. */
  function NumericValues(arr: seq<Score>): Option<seq<real>>
  {
    if |arr| == 0 then Some([])
    else match (arr[0], NumericValues(arr[1..]))
      case (Num(x), Some(rest)) => Some([x] + rest)
      case _ => None
  }

  lemma {:induction false} NumericValuesSpec(arr: seq<Score>)
    ensures NumericValues(arr).None? <==> exists i :: 0 <= i < |arr| && arr[i].NaN?
    ensures NumericValues(arr).Some? ==>
      |NumericValues(arr).value| == |arr| &&
      forall i :: 0 <= i < |arr| ==> NumericValues(arr).value[i] == arr[i].v
  {
    if |arr| > 0 {
      NumericValuesSpec(arr[1..]);
      if arr[0].Num? && NumericValues(arr[1..]).Some? {
        assert forall i :: 1 <= i < |arr| ==> arr[i] == arr[1..][i - 1];
      } else if arr[0].Num? {
        var i :| 0 <= i < |arr[1..]| && arr[1..][i].NaN?;
        assert arr[i + 1].NaN?;
      }
    }
  }

  /**
   * `arr.indexOf(Math.max(...arr))`. A NaN score makes the maximum NaN, and
   * no array holds the empty maximum -Infinity: `indexOf` then gives -1.
   */
  function Argmax(arr: seq<Score>): (idx: int)
  {
    if |arr| == 0 then -1
    else match NumericValues(arr)
      case None => -1
      case Some(xs) => IndexOf(xs, MaxOf(xs))
  }

  /**
   * The classification index is the first position of the largest score
   * when every score is a number, and -1 exactly when some score is NaN or
   * there is none; it is never NaN, so the source's NaN fallback never runs.
   */
  lemma ArgmaxIsFirstMaximum(arr: seq<Score>)
    ensures -1 <= Argmax(arr) < |arr|
    ensures Argmax(arr) == -1 <==> |arr| == 0 || exists i :: 0 <= i < |arr| && arr[i].NaN?
    ensures Argmax(arr) >= 0 ==>
      && (forall j :: 0 <= j < |arr| ==> arr[j].Num? && arr[j].v <= arr[Argmax(arr)].v)
      && (forall j :: 0 <= j < Argmax(arr) ==> arr[j].v < arr[Argmax(arr)].v)
  {
    NumericValuesSpec(arr);
    if |arr| > 0 && NumericValues(arr).Some? {
      var xs := NumericValues(arr).value;
      var m := MaxOf(xs);
      var k := IndexOf(xs, m);
      assert k >= 0;
    }
  }

  /** `idx === 0` appends '.', `idx === 1` appends '-', any other index nothing. */
  function ClassSymbol(idx: int): (s: string)
    ensures SymbolCount(s) == if idx == 0 || idx == 1 then 1 else 0
  {
    if idx == 0 then "." else if idx == 1 then "-" else ""
  }

  /** The label the classifier gives tone `i`. */
  function ToneLabel(durs: seq<real>, gaps: seq<real>, i: nat, predict: Classifier): int
    requires i < |durs|
  {
    Argmax(Predict(predict, durs[i], GapAfter(gaps, i)))
  }

  /** What one iteration of the classification loop appends to the morse string for tone `i`. */
  function ToneCode(durs: seq<real>, gaps: seq<real>, i: nat, dit: real, predict: Classifier): string
    requires i < |durs|
  {
    ClassSymbol(ToneLabel(durs, gaps, i, predict))
    + Separator(GapAfter(gaps, i), dit * LetterGapRatio, dit * WordGapRatio)
  }

  /** The morse string after the first `n` iterations. */
  function MorseOf(durs: seq<real>, gaps: seq<real>, dit: real, predict: Classifier, n: nat): string
    requires n <= |durs|
  {
    if n == 0 then "" else MorseOf(durs, gaps, dit, predict, n - 1) + ToneCode(durs, gaps, n - 1, dit, predict)
  }

  /** The samples pushed to `trainingData` by the first `n` iterations: one per tone. */
  function SamplesOf(durs: seq<real>, gaps: seq<real>, predict: Classifier, n: nat): (s: seq<Sample>)
    requires n <= |durs|
    ensures |s| == n
  {
    if n == 0 then [] else SamplesOf(durs, gaps, predict, n - 1) + [Sample(durs[n - 1], GapAfter(gaps, n - 1), ToneLabel(durs, gaps, n - 1, predict))]
  }

  /** Sample `k` records tone `k`: its duration, the gap after it and the label the classifier gave it. */
  lemma {:induction false} SamplesAreTones(durs: seq<real>, gaps: seq<real>, predict: Classifier, n: nat)
    requires n <= |durs|
    ensures forall k :: 0 <= k < n ==>
      SamplesOf(durs, gaps, predict, n)[k] == Sample(durs[k], GapAfter(gaps, k), ToneLabel(durs, gaps, k, predict))
  {
    if n > 0 {
      SamplesAreTones(durs, gaps, predict, n - 1);
    }
  }

  /** Number of samples labelled dot or dash. */
  function Labelled(s: seq<Sample>): (c: nat)
    ensures c <= |s|
  {
    if |s| == 0 then 0
    else Labelled(s[..|s| - 1]) + (if s[|s| - 1].labelIndex == 0 || s[|s| - 1].labelIndex == 1 then 1 else 0)
  }

  /** Every sample counts exactly when every label is a dot or a dash. */
  lemma {:induction false} AllLabelled(s: seq<Sample>)
    ensures Labelled(s) == |s| <==> forall k :: 0 <= k < |s| ==> s[k].labelIndex == 0 || s[k].labelIndex == 1
  {
    if |s| > 0 {
      var init := s[..|s| - 1];
      AllLabelled(init);
      assert forall k :: 0 <= k < |init| ==> init[k] == s[k];
    }
  }

  /**
   * The classification loop's `morse +=` statements for one tone: the
   * symbol of its class, then its separator.
   */
  method AppendToneCode(morse: string, idx: int, gap: real, dit: real) returns (m: string)
    ensures m == morse + ClassSymbol(idx) + Separator(gap, dit * LetterGapRatio, dit * WordGapRatio)
  {
    m := morse;
    if idx == 0 {
      m := m + ".";
    } else if idx == 1 {
      m := m + "-";
    }
    if gap > dit * LetterGapRatio && gap < dit * WordGapRatio {
      m := m + " ";
    }
    if gap >= dit * WordGapRatio {
      m := m + " / ";
    }
  }

  /** One more tone extends the morse string by its code and the samples by its record. */
  lemma ClassifyStep(durs: seq<real>, gaps: seq<real>, dit: real, predict: Classifier, i: nat)
    requires i < |durs|
    ensures MorseOf(durs, gaps, dit, predict, i + 1) == MorseOf(durs, gaps, dit, predict, i) + ToneCode(durs, gaps, i, dit, predict)
    ensures SamplesOf(durs, gaps, predict, i + 1) == SamplesOf(durs, gaps, predict, i)
      + [Sample(durs[i], GapAfter(gaps, i), ToneLabel(durs, gaps, i, predict))]
  {
  }

  /** One tone's code carries a symbol exactly when the tone is labelled 0 or 1. */
  lemma ToneCodeSymbols(durs: seq<real>, gaps: seq<real>, i: nat, dit: real, predict: Classifier)
    requires i < |durs|
    ensures var idx := ToneLabel(durs, gaps, i, predict);
      SymbolCount(ToneCode(durs, gaps, i, dit, predict)) == if idx == 0 || idx == 1 then 1 else 0
  {
    var gap := GapAfter(gaps, i);
    SeparatorHasNoSymbols(gap, dit * LetterGapRatio, dit * WordGapRatio);
    SymbolCountAppend(ClassSymbol(ToneLabel(durs, gaps, i, predict)),
                      Separator(gap, dit * LetterGapRatio, dit * WordGapRatio));
  }

  lemma LabelledAppend(s: seq<Sample>, x: Sample)
    ensures Labelled(s + [x]) == Labelled(s) + if x.labelIndex == 0 || x.labelIndex == 1 then 1 else 0
  {
    assert (s + [x])[..|s|] == s;
  }

  /** Tone `i` adds one symbol to the morse string and one labelled sample exactly when its label is 0 or 1. */
  lemma SymbolStep(durs: seq<real>, gaps: seq<real>, dit: real, predict: Classifier, i: nat)
    requires i < |durs|
    ensures var add := if ToneLabel(durs, gaps, i, predict) == 0 || ToneLabel(durs, gaps, i, predict) == 1 then 1 else 0;
      && SymbolCount(MorseOf(durs, gaps, dit, predict, i + 1)) == SymbolCount(MorseOf(durs, gaps, dit, predict, i)) + add
      && Labelled(SamplesOf(durs, gaps, predict, i + 1)) == Labelled(SamplesOf(durs, gaps, predict, i)) + add
  {
    ClassifyStep(durs, gaps, dit, predict, i);
    ToneCodeSymbols(durs, gaps, i, dit, predict);
    SymbolCountAppend(MorseOf(durs, gaps, dit, predict, i), ToneCode(durs, gaps, i, dit, predict));
    LabelledAppend(SamplesOf(durs, gaps, predict, i),
                   Sample(durs[i], GapAfter(gaps, i), ToneLabel(durs, gaps, i, predict)));
  }

  /**
   * The morse string holds one '.' or '-' per tone labelled 0 or 1 and none
   * for any other label, so never more symbols than tones.
   */
  lemma {:induction false} MorseSymbolCount(durs: seq<real>, gaps: seq<real>, dit: real, predict: Classifier, n: nat)
    requires n <= |durs|
    ensures SymbolCount(MorseOf(durs, gaps, dit, predict, n)) == Labelled(SamplesOf(durs, gaps, predict, n))
    ensures SymbolCount(MorseOf(durs, gaps, dit, predict, n)) <= n
  {
    if n > 0 {
      var k: nat := n - 1;
      MorseSymbolCount(durs, gaps, dit, predict, k);
      SymbolStep(durs, gaps, dit, predict, k);
      assert k + 1 == n;
    }
  }

  /**
   * A letter separator follows a tone exactly when 2.5 dit < gap < 6 dit, a
   * word separator exactly when gap >= 6 dit, never both; with dit > 0
   * nothing follows the last tone, whose gap is 0.
   */
  lemma Separators(durs: seq<real>, gaps: seq<real>, dit: real, predict: Classifier, i: nat)
    requires i < |durs| && |gaps| == |durs| - 1
    ensures var sep := ToneCode(durs, gaps, i, dit, predict)[|ClassSymbol(ToneLabel(durs, gaps, i, predict))|..];
      && (sep == " " <==> dit * 2.5 < GapAfter(gaps, i) < dit * 6.0)
      && (sep == " / " <==> GapAfter(gaps, i) >= dit * 6.0)
      && (dit > 0.0 && i == |durs| - 1 ==> sep == "")
  {
    var sym := ClassSymbol(ToneLabel(durs, gaps, i, predict));
    var sep := Separator(GapAfter(gaps, i), dit * LetterGapRatio, dit * WordGapRatio);
    assert (sym + sep)[|sym|..] == sep;
  }

  /** The label sent to training: `[1,0,0]` for 0, `[0,1,0]` for 1, `[0,0,1]` for anything else. */
  function OneHot(idx: int): (v: seq<int>)
    ensures |v| == 3 && v[0] + v[1] + v[2] == 1
    ensures forall i :: 0 <= i < 3 ==> v[i] == 0 || v[i] == 1
    ensures v[0] == 1 <==> idx == 0
    ensures v[1] == 1 <==> idx == 1
    ensures v[2] == 1 <==> idx != 0 && idx != 1
  {
    if idx == 0 then [1, 0, 0]
    else if idx == 1 then [0, 1, 0]
    else [0, 0, 1]
  }

  /** The tensors handed to `model.fit`: inputs `[duration, gap]`, one-hot labels. */
  datatype Batch = Batch(xs: seq<(real, real)>, ys: seq<seq<int>>)

  /** `trainModel`: nothing below 6 samples, otherwise the whole store as one batch. */
  function TrainingBatch(data: seq<Sample>): (b: Option<Batch>)
    ensures b.None? <==> |data| < MinTrainingSamples
    ensures b.Some? ==>
      && |b.value.xs| == |data| && |b.value.ys| == |data|
      && forall k :: 0 <= k < |data| ==>
           b.value.xs[k] == (data[k].duration, data[k].gap) && b.value.ys[k] == OneHot(data[k].labelIndex)
  {
    if |data| < MinTrainingSamples then None
    else Some(Batch(seq(|data|, k requires 0 <= k < |data| => (data[k].duration, data[k].gap)),
                    seq(|data|, k requires 0 <= k < |data| => OneHot(data[k].labelIndex))))
  }

  /** `{dit, wpm, morse, samples, decoded}` of one decode pass. */
  datatype Outcome = Outcome(dit: Ext, wpm: Ext, morse: string, samples: seq<Sample>, decoded: string)

  /** What `decodeTimings(times, sampleRate)` computes with the classifier `predict`. */
  function Decode(table: map<string, char>, times: seq<Interval>, rate: real, predict: Classifier): (o: Outcome)
    requires rate > 0.0
    ensures o.dit == MinDuration(Durations(times, rate)) && (o.dit.PosInf? <==> |times| == 0)
    ensures o.wpm == WpmOf(o.dit)
    ensures |o.samples| == |times|
    ensures forall k :: 0 <= k < |times| ==> o.samples[k].duration == Durations(times, rate)[k]
    ensures SymbolCount(o.morse) == Labelled(o.samples) <= |times|
    ensures o.decoded == DecodeMorse(table, o.morse)
  {
    var durs := Durations(times, rate);
    var gaps := Gaps(times, rate);
    var dit := MinDuration(durs);
    var morse := MorseOf(durs, gaps, DitValue(dit), predict, |durs|);
    var samples := SamplesOf(durs, gaps, predict, |durs|);
    MorseSymbolCount(durs, gaps, DitValue(dit), predict, |durs|);
    SamplesAreTones(durs, gaps, predict, |durs|);
    assert |durs| == |times| && |samples| == |times|;
    Outcome(dit, WpmOf(dit), morse, samples, DecodeMorse(table, morse))
  }

  /**
   * With no tones the pass yields an empty morse string, no samples, a wpm
   * of 0 and, when the table has no entry for the empty group, the text "?".
   */
  lemma DecodeNothing(table: map<string, char>, rate: real, predict: Classifier)
    requires rate > 0.0 && "" !in table
    ensures Decode(table, [], rate, predict).morse == ""
    ensures Decode(table, [], rate, predict).samples == []
    ensures Decode(table, [], rate, predict).wpm == Fin(0.0)
    ensures Decode(table, [], rate, predict).decoded == "?"
  {
    EmptyMorse(table);
  }

  /** How the microphone request ends: access, refusal, or an AudioContext that will not resume. */
  datatype MicOutcome = Granted | Denied | ResumeFailed

  /** The page's global state in this revision. */
  class Session {
    const table: map<string, char>
    var decoding: bool
    var log: string
    var wpm: Ext
    var trainingData: seq<Sample>
    var micToneOn: bool
    var micToneStart: Option<real>
    var micTimings: seq<Interval>
    var micPermissionDenied: bool
    /** Whether the Spacebar handlers are installed on the page. */
    var keyListening: bool
    var keyPressStart: Option<real>
    var keyTimings: seq<Interval>
    /** The latest `performance.now()` reading a handler has seen; it never goes back. */
    ghost var clock: real

    /**
     * Both live captures are in time order and end by `clock`; an open mic
     * tone or a pending key press began after every recorded interval.
     */
    ghost predicate Valid()
      reads this`micTimings, this`micToneOn, this`micToneStart, this`keyTimings, this`keyPressStart, this`clock
    {
      && (micToneOn ==> micToneStart.Some?)
      && CaptureInOrder(micTimings, if micToneOn then micToneStart else None, clock)
      && CaptureInOrder(keyTimings, keyPressStart, clock)
    }

    /** `Valid` depends on the captures and the clock only. */
    twostate lemma ValidKept()
      requires old(Valid())
      requires unchanged(this`micTimings, this`micToneOn, this`micToneStart)
      requires unchanged(this`keyTimings, this`keyPressStart, this`clock)
      ensures Valid()
    {
    }

    /** Page load: the log and the training samples come from storage. */
    constructor (morseMap: map<string, char>, storedLog: string, storedTraining: seq<Sample>)
      ensures Valid()
      ensures table == morseMap && log == storedLog && trainingData == storedTraining
      ensures !decoding && !keyListening && !micPermissionDenied && wpm == Fin(0.0)
      ensures !micToneOn && micToneStart == None && micTimings == []
      ensures keyPressStart == None && keyTimings == []
    {
      table := morseMap;
      decoding := false;
      log := storedLog;
      wpm := Fin(0.0);
      trainingData := storedTraining;
      micToneOn := false;
      micToneStart := None;
      micTimings := [];
      micPermissionDenied := false;
      keyListening := false;
      keyPressStart := None;
      keyTimings := [];
      clock := 0.0;
    }

    /**
     * One decode pass over `times` has run on a page whose log and training
     * store were `log0` and `data0`: one log line more and one sample per tone.
     */
    predicate Decoded(log0: string, data0: seq<Sample>, times: seq<Interval>, rate: real, utc: string, predict: Classifier)
      requires rate > 0.0
      reads this
    {
      var o := Decode(table, times, rate, predict);
      && log == log0 + LogLine(utc, o.decoded)
      && wpm == o.wpm
      && trainingData == data0 + o.samples
    }

    /** Nothing was stopped or decoded. */
    twostate predicate Undecoded()
      reads this
    {
      && decoding == old(decoding) && keyListening == old(keyListening)
      && log == old(log) && wpm == old(wpm) && trainingData == old(trainingData)
    }

    /** The Start button: ignored while decoding, otherwise begins decoding and forgets an earlier refusal. */
    method Start() returns (started: bool)
      requires Valid()
      modifies this`decoding, this`micPermissionDenied
      ensures Valid()
      ensures started == !old(decoding)
      ensures decoding
      ensures micPermissionDenied == if started then false else old(micPermissionDenied)
    {
      if decoding {
        return false;
      }
      decoding := true;
      micPermissionDenied := false;
      started := true;
    }

    /** `stopDecoding`: clears the flag and removes the Spacebar handlers. */
    method StopDecoding()
      requires Valid()
      modifies this`decoding, this`keyListening
      ensures Valid()
      ensures !decoding && !keyListening
    {
      decoding := false;
      keyListening := false;
    }

    /**
     * The microphone branch of the Start button. The tone state and the
     * collected mic timings are NOT reset: they carry over from earlier sessions.
     */
    method StartMicrophone(outcome: MicOutcome)
      requires Valid()
      modifies this`micPermissionDenied, this`decoding, this`keyListening
      ensures Valid()
      ensures micPermissionDenied == (outcome == Denied || old(micPermissionDenied))
      ensures if outcome == Granted then decoding == old(decoding) && keyListening == old(keyListening)
              else !decoding && !keyListening
    {
      match outcome
      case Granted =>
      case Denied =>
        micPermissionDenied := true;
        StopDecoding();
      case ResumeFailed =>
        StopDecoding();
    }

    /**
     * The threshold rule of `processMicAmplitude` once the permission guard
     * has passed: a rise above 0.09 opens a tone, a fall below it closes the
     * open tone, and the closed tone stops the capture and decodes when the
     * capture safeguard fires.
     */
    twostate predicate MicLevelled(amp: real, now: real, utc: string, predict: Classifier)
      reads this
    {
      if amp > MicThreshold && !old(micToneOn) then
        micToneOn && micToneStart == Some(now) && micTimings == old(micTimings) && Undecoded()
      else if amp < MicThreshold && old(micToneOn) && old(micToneStart).Some? then
        && !micToneOn && micToneStart == old(micToneStart)
        && micTimings == old(micTimings) + [Interval(old(micToneStart).value, now)]
        && if ShouldStop(micTimings, MicSpanLimit) then
             !decoding && !keyListening && Decoded(old(log), old(trainingData), micTimings, MillisPerSecond, utc, predict)
           else Undecoded()
      else
        && micToneOn == old(micToneOn) && micToneStart == old(micToneStart)
        && micTimings == old(micTimings) && Undecoded()
    }

    /** `processMicAmplitude(amp)`, with `performance.now()` as `now`: nothing happens once access was refused. */
    method ProcessMicAmplitude(amp: real, now: real, utc: string, predict: Classifier)
      requires Valid() && now >= clock
      modifies this`micToneOn, this`micToneStart, this`micTimings, this`decoding, this`keyListening
      modifies this`log, this`wpm, this`trainingData, this`clock
      ensures Valid() && clock == now
      ensures micPermissionDenied ==>
                && micToneOn == old(micToneOn) && micToneStart == old(micToneStart)
                && micTimings == old(micTimings) && Undecoded()
      ensures !micPermissionDenied ==> MicLevelled(amp, now, utc, predict)
    {
      if micPermissionDenied {
        clock := now;
        return;
      }
      MicLevel(amp, now, utc, predict);
    }

    /** The body of `processMicAmplitude` after the permission guard. */
    method MicLevel(amp: real, now: real, utc: string, predict: Classifier)
      requires Valid() && now >= clock
      modifies this`micToneOn, this`micToneStart, this`micTimings, this`decoding, this`keyListening
      modifies this`log, this`wpm, this`trainingData, this`clock
      ensures Valid() && clock == now
      ensures MicLevelled(amp, now, utc, predict)
    {
      if amp > MicThreshold && !micToneOn {
        clock := now;
        micToneStart := Some(now);
        micToneOn := true;
      } else if amp < MicThreshold && micToneOn {
        CloseMicTone(now, utc, predict);
      } else {
        clock := now;
      }
    }

    /** The falling edge: the open tone is pushed, and the safeguard may stop and decode. */
    method CloseMicTone(now: real, utc: string, predict: Classifier)
      requires Valid() && micToneOn && now >= clock
      modifies this`micToneOn, this`micTimings, this`decoding, this`keyListening
      modifies this`log, this`wpm, this`trainingData, this`clock
      ensures Valid() && clock == now
      ensures !micToneOn && micTimings == old(micTimings) + [Interval(micToneStart.value, now)]
      ensures if ShouldStop(micTimings, MicSpanLimit) then
                !decoding && !keyListening && Decoded(old(log), old(trainingData), micTimings, MillisPerSecond, utc, predict)
              else Undecoded()
    {
      PushMicTone(now);
      var timings := micTimings;
      if ShouldStop(timings, MicSpanLimit) {
        StopAndDecode(timings, MillisPerSecond, utc, predict);
      }
    }

    /** `micTimings.push({start: micToneStart, end})` and the tone closes; the capture stays in time order. */
    method PushMicTone(now: real)
      requires Valid() && micToneOn && now >= clock
      modifies this`micToneOn, this`micTimings, this`clock
      ensures Valid() && clock == now
      ensures !micToneOn && micTimings == old(micTimings) + [Interval(micToneStart.value, now)]
    {
      CloseInOrder(micTimings, micToneStart.value, clock, now);
      clock := now;
      micTimings := micTimings + [Interval(micToneStart.value, now)];
      micToneOn := false;
    }

    /** `startKeyboard`: clears the key timings and installs the Spacebar handlers. */
    method StartKeyboard()
      requires Valid()
      modifies this`keyTimings, this`keyPressStart, this`keyListening
      ensures Valid()
      ensures keyTimings == [] && keyPressStart == None && keyListening
    {
      keyTimings := [];
      keyPressStart := None;
      keyListening := true;
    }

    /** The `onkeydown` handler: a Spacebar press is timed only when none is pending and decoding is on. */
    method KeyDown(code: string, now: real)
      requires Valid() && now >= clock
      modifies this`keyPressStart, this`clock
      ensures Valid() && clock == now
      ensures keyPressStart ==
        if keyListening && code == "Space" && old(keyPressStart).None? && decoding then Some(now)
        else old(keyPressStart)
    {
      clock := now;
      if keyListening && code == "Space" && keyPressStart.None? && decoding {
        keyPressStart := Some(now);
      }
    }

    /** The `onkeyup` handler: a pending Spacebar press becomes a tone; 80 tones or 20 s end the capture. */
    method KeyUp(code: string, now: real, utc: string, predict: Classifier)
      requires Valid() && now >= clock
      modifies this`keyPressStart, this`keyTimings, this`decoding, this`keyListening
      modifies this`log, this`wpm, this`trainingData, this`clock
      ensures Valid() && clock == now
      ensures if old(keyListening) && code == "Space" && old(keyPressStart).Some? && old(decoding) then
                && keyPressStart == None
                && keyTimings == old(keyTimings) + [Interval(old(keyPressStart).value, now)]
                && if ShouldStop(keyTimings, KeySpanLimit) then
                     !decoding && !keyListening && Decoded(old(log), old(trainingData), keyTimings, MillisPerSecond, utc, predict)
                   else Undecoded()
              else keyPressStart == old(keyPressStart) && keyTimings == old(keyTimings) && Undecoded()
    {
      if keyListening && code == "Space" && keyPressStart.Some? && decoding {
        PushKeyTone(now);
        var timings := keyTimings;
        if ShouldStop(timings, KeySpanLimit) {
          StopAndDecode(timings, MillisPerSecond, utc, predict);
        }
      } else {
        clock := now;
      }
    }

    /** `keyTimings.push({start: keyPressStart, end})` and no press is pending; the capture stays in time order. */
    method PushKeyTone(now: real)
      requires Valid() && keyPressStart.Some? && now >= clock
      modifies this`keyPressStart, this`keyTimings, this`clock
      ensures Valid() && clock == now
      ensures keyPressStart == None && keyTimings == old(keyTimings) + [Interval(old(keyPressStart).value, now)]
    {
      CloseInOrder(keyTimings, keyPressStart.value, clock, now);
      clock := now;
      keyTimings := keyTimings + [Interval(keyPressStart.value, now)];
      keyPressStart := None;
    }

    /** `decodeWavFile` once the audio is decoded: envelope detection, stop, decode. */
    method DecodeWav(data: array<real>, sampleRate: real, utc: string, predict: Classifier)
      requires sampleRate > 0.0 && Valid()
      ensures Valid()
      modifies this`decoding, this`keyListening, this`log, this`wpm, this`trainingData
      ensures !decoding && !keyListening
      ensures Decoded(old(log), old(trainingData), Tones(data[..]), sampleRate, utc, predict)
    {
      var times := DetectTones(data);
      StopAndDecode(times, sampleRate, utc, predict);
    }

    /** `stopDecoding(); decodeTimings(times, rate)`, the closing pair of every capture. */
    method StopAndDecode(times: seq<Interval>, rate: real, utc: string, predict: Classifier)
      requires rate > 0.0 && Valid()
      ensures Valid()
      modifies this`decoding, this`keyListening, this`log, this`wpm, this`trainingData
      ensures !decoding && !keyListening
      ensures Decoded(old(log), old(trainingData), times, rate, utc, predict)
    {
      label entry:
      StopDecoding();
      var _ := DecodeTimings(times, rate, utc, predict);
      ValidKept@entry();
    }

    /**
     * The tone loop of `decodeTimings`: classify each tone, append its symbol
     * and separator, and push its sample to the training store.
     */
    method ClassifyTones(durs: seq<real>, gaps: seq<real>, d: real, predict: Classifier) returns (morse: string)
      modifies this`trainingData
      ensures morse == MorseOf(durs, gaps, d, predict, |durs|)
      ensures trainingData == old(trainingData) + SamplesOf(durs, gaps, predict, |durs|)
    {
      morse := "";
      var i := 0;
      while i < |durs|
        invariant 0 <= i <= |durs|
        invariant morse == MorseOf(durs, gaps, d, predict, i)
        invariant trainingData == old(trainingData) + SamplesOf(durs, gaps, predict, i)
      {
        var gap := GapAfter(gaps, i);  // `gaps[i] || 0`
        var idx := ToneLabel(durs, gaps, i, predict);
        morse := AppendToneCode(morse, idx, gap, d);
        trainingData := trainingData + [Sample(durs[i], gap, idx)];
        ClassifyStep(durs, gaps, d, predict, i);
        Assoc(old(trainingData), SamplesOf(durs, gaps, predict, i), [Sample(durs[i], gap, idx)]);
        Assoc(MorseOf(durs, gaps, d, predict, i), ClassSymbol(idx), Separator(gap, d * LetterGapRatio, d * WordGapRatio));
        i := i + 1;
      }
    }

    /**
     * `decodeTimings(times, sampleRate)`: classify and record every tone,
     * refit the classifier on the grown store (`batch`, none below 6
     * samples), then decode and log.
     */
    method DecodeTimings(times: seq<Interval>, rate: real, utc: string, predict: Classifier)
      returns (batch: Option<Batch>)
      requires rate > 0.0
      modifies this`log, this`wpm, this`trainingData
      ensures Decoded(old(log), old(trainingData), times, rate, utc, predict)
      ensures batch == TrainingBatch(trainingData)
    {
      var durations := Durations(times, rate);
      var gaps := ComputeGaps(times, rate);
      var dit := MinDuration(durations);
      wpm := WpmOf(dit);
      var d := DitValue(dit);  // +Infinity only when there are no tones, and then the loop does not run
      var morse := ClassifyTones(durations, gaps, d, predict);
      batch := TrainingBatch(trainingData);
      var decoded := DecodeMorse(table, morse);
      log := log + LogLine(utc, decoded);
    }

    /** The Clear button. */
    method ClearLog()
      requires Valid()
      modifies this`log
      ensures Valid()
      ensures log == ""
    {
      log := "";
    }
  }
}
