# BM CW Decoder — a Dafny model of the decoding core

BM CW Decoder is a browser page that turns Morse (CW) tones into text. The
tones come from a microphone, the Spacebar or a WAV file. Each tone becomes
an interval `{start, end}`. A decode runs in two cases only:

- a live capture (microphone or Spacebar) collects more than 80 tones or
  spans more than its time limit;
- a WAV file has been scanned.

A decode, `decodeTimings`, does four things:

- it turns the intervals into durations and gaps;
- it estimates the dit (the shortest tone) and the speed in words per minute;
- it writes a string of `.`, `-`, `' '` (end of letter) and `' / '` (end of
  word), and looks up each letter group in the Morse table;
- it appends one line `[timestamp] text` to a persistent log.

The repository has two revisions of this page, and each is modelled as its
own module.

- `bm-cw-decoder-tf.js` → `DecoderThreshold` (the threshold revision, which
  uses no TensorFlow despite its file name):
  - a tone is a dot when it is shorter than 1.7 dits;
  - a gap above 2.5 dits and below 3 dahs ends a letter, and a gap of 3 dahs
    or more ends a word;
  - the dit is replaced by the mean dit of earlier decodes when the two lie
    within 0.05 of each other;
  - every decode stores a record `{dit, dah, wpm, morse, decoded, time}`.
- `bm-cw-decoder.js` → `DecoderClassifier` (the classifier revision):
  - a trainable three-way classifier scores each `(duration, gap)`, and the
    first maximal score picks dot (0), dash (1) or nothing;
  - a gap above 2.5 dits and below 6 dits ends a letter, and a gap of 6 dits
    or more ends a word;
  - every tone becomes a training sample, and the classifier is refitted on
    the whole store once it holds at least 6 samples;
  - a refused microphone makes the amplitude handler do nothing.

Shared modules:

- `Timing`:
  - intervals, durations and gaps;
  - `Math.min` with its `+Infinity` for no tones (`Ext`);
  - the `1.2 / dit` speed formula;
  - the capture safeguard (more than 80 tones, or a span beyond 15 s for the
    microphone or 20 s for the keyboard);
  - the gap-to-separator rule.
- `Envelope`: the WAV envelope loop, with a 0.15 threshold. It is the same in
  both revisions.
- `MorseText`:
  - JavaScript's `split` and `join`;
  - the table lookup with its `'?'` fallback;
  - a split/join round trip.
- `DecodeLog`: the log line and the log append.

The page's global state is a `Session` class in each revision, and its event
handlers are methods that change its fields. The Morse table is a parameter
(`map<string, char>`), and so are the following:

- the clocks: `performance.now()`, `Date.now()`, and the UTC text of
  `getUTC()`;
- the audio samples;
- the outcome of the microphone permission request.

`performance.now()` never goes back. Each `Session` keeps the latest
reading a handler has seen in a ghost field `clock`, and every handler that
reads the clock requires `now >= clock`. From this, `Session.Valid()`
follows: both live captures, `micTimings` and `keyTimings`, are in time
order and have ended by `clock`, and an open mic tone or a pending key press
began after all of their intervals. Every handler keeps `Valid()`.

The classifier is seen only through its answers. A `Classifier` is a table
from `(duration, gap)` to the scores it returns.

Some behaviours of the code a reader might not expect (the model follows
the code in each):

- The Stop button does not decode. It only stops the capture
  (`stopDecoding`, `bm-cw-decoder-tf.js:83-85`, `bm-cw-decoder.js:146-148`),
  and the tones collected so far are never decoded. This holds even though
  the keyboard prompt says 'Press "Stop" to decode.'
  (`bm-cw-decoder-tf.js:213`, `bm-cw-decoder.js:132`). In the model,
  `Session.StopDecoding` may change only the decoding flag and the key
  handlers, never the log, the speed or the training store.
- A letter gap must be strictly greater than 2.5 dits. The upper bound
  differs by revision: below 3 dahs (9 dits when dah = 3·dit) in the
  threshold revision, below 6 dits in the classifier revision. A word gap is
  one of at least that bound.
- No tones is not guarded:
  - the dit is `+Infinity` and the speed 0;
  - the morse string is empty;
  - the decoded text is `"?"` unless the table maps the empty group;
  - the log still gains a line (`DecodeNothing`).
- The classifier revision marks an `isNaN(idx)` test as a
  "Fallback for first run" (`bm-cw-decoder.js:299-302`), but that branch
  cannot run. `indexOf` returns -1 when the maximum is NaN, never NaN. A NaN
  score therefore gives the tone no symbol at all (`ArgmaxIsFirstMaximum`).
- The classifier revision never clears the microphone tone state or
  `micTimings`, so later captures continue the old list. Once the safeguard
  has fired, every later tone fires it again at once (`StopIsSticky`). The
  threshold revision clears that state in `startMicrophone`.
- With a dit of 0, every gap of 0 or more, including the 0 after the last
  tone, is a word gap (`Separators` in both revisions).

## Model

| member | source | states |
|---|---|---|
| Timing.Durations | bm-cw-decoder-tf.js:260 | one duration per tone, `(end - start) / sampleRate`, positive for well-formed tones |
| Timing.ComputeGaps | bm-cw-decoder.js:282-285 | the gaps loop yields one gap per neighbouring pair, gap k being `(start[k+1] - end[k]) / sampleRate` |
| Timing.ChronologicalOrder | bm-cw-decoder.js:222 | a capture in time order has no interval ending before it starts, none ending after a later one starts, and none ending after the last one |
| Timing.PushChronological | bm-cw-decoder.js:222 | pushing `{start, end}` with start no earlier than the capture's last end and end no earlier than start keeps it in time order, ending at `end` |
| Timing.CloseInOrder | bm-cw-decoder.js:218-222 | closing the open tone at a time no earlier than the clock keeps the capture in order, with nothing open |
| Timing.ChronologicalAt | bm-cw-decoder.js:244 | in a capture in time order, each interval is well formed and ends by the time its successor starts |
| Timing.ChronologicalDurations | bm-cw-decoder.js:281 | a capture in time order has no negative duration |
| Timing.ChronologicalGaps | bm-cw-decoder.js:283-285 | a capture in time order has no negative gap |
| Timing.GapsShape | bm-cw-decoder-tf.js:261-264 | there are `n - 1` gaps for n tones, the gap read after the last tone (`gaps[i] \|\| 0`) is 0, and between ordered tones every gap is positive |
| Timing.Gaps | bm-cw-decoder-tf.js:261-264 | the gaps as values: `(start[k+1] - end[k]) / sampleRate` for each neighbouring pair, none for fewer than two tones |
| Timing.GapAfter | bm-cw-decoder-tf.js:284 | `gaps[i] \|\| 0`: the stored gap, or 0 past the end of the gap list |
| Timing.MinDuration | bm-cw-decoder-tf.js:266 | `Math.min(...durations)` is +Infinity exactly when there are no tones, otherwise a duration no larger than any other |
| Timing.Scale | bm-cw-decoder-tf.js:267 | `dit*3` for a positive factor: +Infinity exactly when the dit is, otherwise the scaled value |
| Timing.WpmOf | bm-cw-decoder.js:288 | `1.2 / dit`: speed times dit is 1.2; an infinite dit gives 0 and a zero dit gives +Infinity |
| Timing.ShouldStop | bm-cw-decoder.js:247 | the safeguard test: more than 80 tones, or a nonempty list whose last end minus first start exceeds the limit |
| Timing.StopBoundary | bm-cw-decoder-tf.js:204 | the 81st tone always stops a capture; 80 tones inside the span limit never do |
| Timing.StopIsSticky | bm-cw-decoder.js:225 | on a list that is never cleared, a later tone after the safeguard fired fires it again |
| Timing.Separator | bm-cw-decoder-tf.js:285-286 | the two independent `if`s give `' '` exactly for `letter < gap < word`, `' / '` exactly for `gap >= word`, and never both |
| Envelope.Scan | bm-cw-decoder.js:196-205 | the detector state and the pushed intervals after the first n samples, as a fold of `Step` starting with no tone |
| Envelope.Tones | bm-cw-decoder.js:197-205 | the intervals pushed over the whole buffer; a tone still on at the end is dropped |
| Envelope.Step | bm-cw-decoder-tf.js:107-113 | with no tone open, a sample above 0.15 opens one at `i`; with a tone open, a sample below 0.15 closes it and pushes `{start, i}`; nothing else changes the state or pushes, and a sample of exactly 0.15 never does |
| Envelope.ScanGrows | bm-cw-decoder-tf.js:106-113 | scanning more samples only appends: the intervals pushed over a prefix are a prefix of those pushed over a longer one |
| Envelope.ScanAfterRise | bm-cw-decoder-tf.js:107-109 | after a sample above 0.15 the scan is inside a tone or has already pushed one |
| Envelope.ToneIsDetected | bm-cw-decoder-tf.js:106-113 | the detector fires: a sample above 0.15 followed later by one below it yields at least one tone |
| Envelope.TonesAreOrdered | bm-cw-decoder.js:195-205 | the detected tones are ordered and non-overlapping, with start < end, inside the buffer, and before a tone still open at the end |
| Envelope.DetectTones | bm-cw-decoder-tf.js:104-113 | the envelope loop over the channel array (the same in `bm-cw-decoder.js:197-205`) yields exactly the scan's intervals, ordered and inside the buffer |
| MorseText.Split | bm-cw-decoder-tf.js:290-291 | JavaScript `split` with a non-empty separator: cut at the leftmost non-overlapping occurrences; never an empty list |
| MorseText.JoinSplit | bm-cw-decoder.js:316-317 | joining the parts of a split with the same separator gives the string back |
| MorseText.Join | bm-cw-decoder.js:317-318 | JavaScript `join`: the parts in order with one separator between neighbours, so its length is the parts' total plus one separator per neighbouring pair |
| MorseText.Lookup | bm-cw-decoder-tf.js:291 | `MORSE_MAP[code] \|\| '?'`: the table's letter, or `'?'` for a group the table lacks |
| MorseText.DecodeMorse | bm-cw-decoder-tf.js:290-292 | the decode expression: split on `' / '`, split each word on `' '`, look every group up, join letters with nothing and words with one space |
| MorseText.LookupAll | bm-cw-decoder-tf.js:291 | each letter group yields one character: the table's, or `'?'` when it is missing |
| MorseText.DecodeWord | bm-cw-decoder-tf.js:291 | one word, `word.split(' ').map(code => MORSE_MAP[code] \|\| '?').join('')`, gives one character per letter group |
| MorseText.DecodeWords | bm-cw-decoder.js:316-318 | each word decodes to one character per letter group |
| MorseText.SplitJoin | bm-cw-decoder-tf.js:290 | splitting on a separator gives back the joined parts when none of them holds its marker character |
| MorseText.DecodeEncoded | bm-cw-decoder.js:316-318 | words of dot-dash groups written with `' '` and `' / '` split back into the same words and groups, and decode to the looked-up letters joined by single spaces |
| MorseText.DecodedLength | bm-cw-decoder-tf.js:290-292 | the decoded text has one character per letter group plus one space between neighbouring words |
| MorseText.EmptyMorse | bm-cw-decoder.js:316-318 | an empty morse string decodes to `"?"` when the table has no empty group |
| MorseText.DecodeSos | bm-cw-decoder-tf.js:290-292 | `"... --- ..."` decodes to `"SOS"` under the standard table |
| DecodeLog.LogLine | bm-cw-decoder-tf.js:293 | a log line opens with `[`, ends with a newline and is 4 characters longer than its timestamp and text |
| DecodeLog.LogLineHasOneNewline | bm-cw-decoder.js:319 | a log line holds exactly one newline when its parts hold none |
| DecodeLog.AppendAddsOneLine | bm-cw-decoder-tf.js:293 | appending keeps the old log as a prefix and adds exactly one line |
| DecoderThreshold.Dits | bm-cw-decoder-tf.js:274 | one stored dit per training record, in order |
| DecoderThreshold.Add | bm-cw-decoder-tf.js:275 | the reducer `(a,b)=>a+b`: +Infinity exactly when an operand is, otherwise the real sum |
| DecoderThreshold.Sum | bm-cw-decoder-tf.js:275 | the sum of the stored dits is infinite exactly when one of them is |
| DecoderThreshold.Mean | bm-cw-decoder-tf.js:275 | the mean stored dit, `sum / length`, infinite when some stored dit is |
| DecoderThreshold.Blend | bm-cw-decoder-tf.js:273-278 | the result is the fresh dit or the historical mean; the mean is taken exactly when records exist and it is finite, nonzero and within 0.05 of the fresh dit; the result is infinite exactly when the fresh dit is |
| DecoderThreshold.BlendWithHistory | bm-cw-decoder-tf.js:272-278 | the blending statements compute `Blend` and recompute the dah as 3 dits |
| DecoderThreshold.Symbol | bm-cw-decoder-tf.js:283 | `'.'` below 1.7 dits, `'-'` otherwise |
| DecoderThreshold.ToneCode | bm-cw-decoder-tf.js:283-286 | what one iteration appends for tone i: its symbol, then the separator for `gaps[i] \|\| 0` with bounds `dit·2.5` and `dah·3` |
| DecoderThreshold.MorseOf | bm-cw-decoder-tf.js:281-287 | the morse string after the first n iterations: the tone codes in order |
| DecoderThreshold.DotDashSplit | bm-cw-decoder-tf.js:283 | a tone is a dot exactly below 1.7 dits: half a dit is a dot, 1.7 and 5 dits are dashes |
| DecoderThreshold.AppendToneCode | bm-cw-decoder-tf.js:283-286 | one iteration appends the tone's symbol and then its separator (`dit·2.5`, `dah·3`) |
| DecoderThreshold.BuildMorse | bm-cw-decoder-tf.js:281-287 | the morse loop yields the per-tone codes in order, with exactly one `.` or `-` per tone |
| DecoderThreshold.MorseSymbolCount | bm-cw-decoder-tf.js:282-287 | after n iterations the morse string holds exactly n dots and dashes |
| DecoderThreshold.Separators | bm-cw-decoder-tf.js:284-286 | with dah = 3 dit, for every dit: a letter separator exactly when 2.5 dit < gap < 9 dit, a word separator exactly when gap ≥ 9 dit, never both; nothing after the last tone when dit > 0 |
| DecoderThreshold.Decode | bm-cw-decoder-tf.js:258-292 | the dit is infinite exactly with no tones, lies within 0.05 of the shortest tone, and dah = 3·dit; wpm comes from the unblended dit; one symbol per tone; the text is the lookup of the morse string |
| DecoderThreshold.DecodeNothing | bm-cw-decoder-tf.js:266-292 | no tones give an empty morse string, speed 0 and the text `"?"` |
| DecoderThreshold.ShortestToneIsDot | bm-cw-decoder-tf.js:266-283 | without stored records the dit is the shortest tone, and that tone is written as a dot |
| DecoderThreshold.LetterFTimings | bm-cw-decoder-tf.js:260-266 | tones of 50, 50, 150 and 50 ms back to back have those durations in seconds, zero gaps and a 0.05 s dit |
| DecoderThreshold.LetterFMorse | bm-cw-decoder-tf.js:281-287 | those durations and gaps give `"..-."` |
| DecoderThreshold.DecodeLetterF | bm-cw-decoder-tf.js:258-292 | those tones decode to `"F"` with a 0.05 s dit |
| DecoderThreshold.Session.constructor | bm-cw-decoder-tf.js:25-29 | the log and the training records are the stored ones; nothing is decoding or listening |
| DecoderThreshold.Session.Start | bm-cw-decoder-tf.js:66-71 | Start is ignored while decoding, otherwise decoding begins |
| DecoderThreshold.Session.StopDecoding | bm-cw-decoder-tf.js:236-255 | decoding stops and the Spacebar handlers are removed |
| DecoderThreshold.Session.StartMicrophone | bm-cw-decoder-tf.js:166-192 | the mic tone state and timings are cleared; a refused microphone stops decoding |
| DecoderThreshold.Session.ProcessMicAmplitude | bm-cw-decoder-tf.js:194-209 | rising above 0.09 opens a tone at `now`; falling below it closes the open tone as `{start, now}`; a closed tone that fires the 80-tone / 15 s safeguard stops and decodes the whole list; otherwise nothing is decoded; the captures stay in time order up to `now` |
| DecoderThreshold.Session.StartKeyboard | bm-cw-decoder-tf.js:212-215 | the key timings and pending press are cleared and the handlers installed |
| DecoderThreshold.Session.KeyDown | bm-cw-decoder-tf.js:216-220 | a Spacebar press is timed only when handlers are installed, decoding is on and no press is pending; the captures stay in time order up to `now` |
| DecoderThreshold.Session.KeyUp | bm-cw-decoder-tf.js:221-232 | a pending Spacebar press becomes a tone `{start, now}`; the 80-tone / 20 s safeguard stops and decodes the whole list; anything else changes nothing; the captures stay in time order up to `now` |
| DecoderThreshold.Session.DecodeWav | bm-cw-decoder-tf.js:101-160 | the channel's envelope tones are decoded at the sample rate after decoding stops |
| DecoderThreshold.Session.StopAndDecode | bm-cw-decoder-tf.js:205-206 | decoding stops, the handlers are removed, and one decode pass over the given list runs on the log and records as they were |
| DecoderThreshold.Session.DecodeTimings | bm-cw-decoder-tf.js:258-301 | one decode: the log gains the line for `Decode`'s text, wpm is set, and one record `{dit, dah, wpm, morse, decoded, time}` is appended |
| DecoderThreshold.Session.ClearLog | bm-cw-decoder-tf.js:86-92 | the Clear button empties the log |
| DecoderClassifier.Predict | bm-cw-decoder.js:295-297 | the classifier's scores for the input `[duration, gap]`, none for an input it was not asked about |
| DecoderClassifier.Argmax | bm-cw-decoder.js:298 | `arr.indexOf(Math.max(...arr))`: -1 for no scores or a NaN, else the first position of the largest score |
| DecoderClassifier.ToneLabel | bm-cw-decoder.js:294-298 | the index the classifier gives tone i from its duration and `gaps[i] \|\| 0` |
| DecoderClassifier.ToneCode | bm-cw-decoder.js:303-307 | what one iteration appends for tone i: the symbol of its label, then the separator with bounds `dit·2.5` and `dit·6` |
| DecoderClassifier.MorseOf | bm-cw-decoder.js:292-310 | the morse string after the first n iterations: the tone codes in order |
| DecoderClassifier.MaxOf | bm-cw-decoder.js:298 | `Math.max` of numbers is one of them and no smaller than any |
| DecoderClassifier.IndexOf | bm-cw-decoder.js:298 | `indexOf` is the first position holding the value, or -1 when absent |
| DecoderClassifier.NumericValuesSpec | bm-cw-decoder.js:297-298 | the scores read as numbers exactly when none is NaN, keeping every value in place |
| DecoderClassifier.ArgmaxIsFirstMaximum | bm-cw-decoder.js:298-302 | the index is -1 exactly when there is no score or a NaN, otherwise the first position of the largest score; it is never NaN, so the fallback never runs |
| DecoderClassifier.ClassSymbol | bm-cw-decoder.js:303-304 | index 0 or 1 adds one symbol, any other index none |
| DecoderClassifier.AppendToneCode | bm-cw-decoder.js:303-307 | one iteration appends the class's symbol and then the separator for `dit·2.5`, `dit·6` |
| DecoderClassifier.SamplesOf | bm-cw-decoder.js:309 | one training sample is pushed per tone |
| DecoderClassifier.SamplesAreTones | bm-cw-decoder.js:292-310 | sample k holds tone k's duration, the gap after it and its label |
| DecoderClassifier.Labelled | bm-cw-decoder.js:303-304 | the number of dot/dash-labelled samples is at most the number of samples |
| DecoderClassifier.AllLabelled | bm-cw-decoder.js:303-304 | every sample counts exactly when every label is 0 or 1 |
| DecoderClassifier.MorseSymbolCount | bm-cw-decoder.js:292-310 | the morse string holds exactly one symbol per tone labelled 0 or 1, so never more than the tones |
| DecoderClassifier.Separators | bm-cw-decoder.js:306-307 | a letter separator exactly when 2.5 dit < gap < 6 dit, a word separator exactly when gap ≥ 6 dit, never both, nothing after the last tone when dit > 0 |
| DecoderClassifier.OneHot | bm-cw-decoder.js:175-179 | the label becomes a one-hot triple: first for 0, second for 1, third for anything else |
| DecoderClassifier.TrainingBatch | bm-cw-decoder.js:170-180 | below 6 samples there is no fit; otherwise the batch holds every sample's `[duration, gap]` and one-hot label, in order |
| DecoderClassifier.Decode | bm-cw-decoder.js:278-318 | the dit is the shortest tone, infinite exactly with no tones; wpm = 1.2/dit; one sample per tone with its duration; symbols equal labelled samples; the text is the lookup of the morse string |
| DecoderClassifier.DecodeNothing | bm-cw-decoder.js:287-318 | no tones give an empty morse string, no samples, speed 0 and the text `"?"` |
| DecoderClassifier.Session.constructor | bm-cw-decoder.js:32-36 | the log and the training samples are the stored ones; no refusal recorded; nothing decoding |
| DecoderClassifier.Session.Start | bm-cw-decoder.js:89-94 | Start is ignored while decoding; otherwise decoding begins and an earlier refusal is forgotten |
| DecoderClassifier.Session.StopDecoding | bm-cw-decoder.js:256-275 | decoding stops and the Spacebar handlers are removed |
| DecoderClassifier.Session.StartMicrophone | bm-cw-decoder.js:95-130 | a refusal is recorded and stops decoding; a failed resume stops decoding; mic tone state is left as it was |
| DecoderClassifier.Session.ProcessMicAmplitude | bm-cw-decoder.js:214-230 | after a refusal nothing changes; otherwise the threshold rule applies; the captures stay in time order up to `now` |
| DecoderClassifier.Session.MicLevel | bm-cw-decoder.js:216-229 | rising above 0.09 opens a tone; falling below closes it as `{start, now}`; the 80-tone / 15 s safeguard stops and decodes the whole list; otherwise nothing is decoded |
| DecoderClassifier.Session.CloseMicTone | bm-cw-decoder.js:220-228 | the open tone is pushed as `{start, now}` and the tone closed; the 80-tone / 15 s safeguard stops and decodes the whole list, otherwise nothing is stopped or decoded |
| DecoderClassifier.Session.PushMicTone | bm-cw-decoder.js:221-223 | `{start, now}` is pushed and the tone closed; the mic capture stays in time order, ending at `now` |
| DecoderClassifier.Session.StartKeyboard | bm-cw-decoder.js:233-235 | the key timings and pending press are cleared and the handlers installed |
| DecoderClassifier.Session.KeyDown | bm-cw-decoder.js:236-240 | a Spacebar press is timed only when handlers are installed, decoding is on and no press is pending; the captures stay in time order up to `now` |
| DecoderClassifier.Session.KeyUp | bm-cw-decoder.js:241-252 | a pending Spacebar press becomes a tone; the 80-tone / 20 s safeguard stops and decodes the whole list; anything else changes nothing; the captures stay in time order up to `now` |
| DecoderClassifier.Session.PushKeyTone | bm-cw-decoder.js:243-245 | `{start, now}` is pushed and no press is pending; the key capture stays in time order, ending at `now` |
| DecoderClassifier.Session.DecodeWav | bm-cw-decoder.js:192-208 | the channel's envelope tones are decoded at the sample rate after decoding stops |
| DecoderClassifier.Session.StopAndDecode | bm-cw-decoder.js:226-227 | decoding stops, the handlers are removed, and one decode pass over the given list runs on the log and samples as they were |
| DecoderClassifier.Session.ClassifyTones | bm-cw-decoder.js:292-310 | the loop yields the per-tone codes in order and pushes one sample per tone onto the store |
| DecoderClassifier.Session.DecodeTimings | bm-cw-decoder.js:278-323 | one decode: samples appended, the log gains the line for `Decode`'s text, wpm set, and the fit batch is `TrainingBatch` of the grown store |
| DecoderClassifier.Session.ClearLog | bm-cw-decoder.js:149-155 | the Clear button empties the log |

## Left out

- DOM and user interface: status messages, the WPM display and the rendering
  of the log. The input-method radio buttons are left out too: the Start
  button's per-method branches are separate methods here.
- The page's sample database block (`bm-cw-decoder-tf.js:114-156`) sits
  inside the envelope loop. It only installs user-interface handlers, so it
  is left out. `morse_samples.js` is not part of this model.
- Audio plumbing is not modelled: `getUserMedia`, the `AudioContext`, the
  analyser, the 8 ms polling timer, and the peak-to-peak amplitude of a frame.
  An amplitude is a parameter of the handler, and a WAV file is the array of
  its first channel.
- Stopping the audio stream, the context and the timer is not modelled. Only
  the decoding flag and the removal of the key handlers are.
- Storage is left out: `localStorage` and the JSON round trip (under which a
  stored `Infinity` dit would become `null`). Stored data is passed to the
  constructor, and saving is not modelled.
- TensorFlow is not modelled:
  - the network's layers, `ensureModel`, loading and saving weights, and the
    effect of `model.fit`;
  - a pass uses one fixed classifier, and the fit is represented by the
    batch it receives (`TrainingBatch`).
- Concurrency is not modelled. The classifier revision awaits inside
  `decodeTimings` (on `ensureModel` and on every prediction), so handlers
  could interleave there; a decode pass is modelled as atomic.
- Floating point is not modelled: durations, gaps and thresholds are exact
  reals with no IEEE rounding, and only `+Infinity` is kept from the special
  values. NaN is kept as a classifier score.
- Timestamps: `getUTC()` formatting is a text parameter, and `performance.now()`
  and `Date.now()` are parameters. That `performance.now()` never goes back
  is a precondition of the handlers (`now >= clock`), not something the model
  derives.
- DecoderThreshold.Session.DecodeTimings: requires a positive sample rate. Both
  callers pass 1000 or the WAV file's rate. A zero rate is not modelled: it
  would make every duration +Infinity, or NaN for a zero-length tone.
- DecoderThreshold.Session.StopAndDecode: requires a positive sample rate, as
  DecodeTimings does.
- DecoderClassifier.Session.DecodeTimings: requires a positive sample rate, for the
  same reason.
- DecoderClassifier.Session.StopAndDecode: requires a positive sample rate, as
  DecodeTimings does.
- The `isNaN(idx)` fallback of the classifier revision cannot run, so it is
  not modelled. `ArgmaxIsFirstMaximum` proves that the index is never NaN.
