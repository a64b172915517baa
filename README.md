# AI Composer — a verified model of its core

AI Composer writes short melodies and turns them into sound. It has three
parts, and each one is a module here:

- **Composer** (`composer.dfy`) is the first-order Markov melody model.
  `MarkovComposer` is a class whose `chain` field maps a note to the list of
  notes that followed it in the training melodies. `Train` rebuilds that
  table with the source's own nested loops. `Compose` walks the table from a
  start note and jumps to some key at a dead end. `random.choice` becomes an
  arbitrary pick, so every property holds for every choice.
- **Synthesizer** (`synthesizer.dfy`) is the melody-string front end of the
  synthesizer. It covers:
  - pitch names and octaves to Hertz, with the warning for an unknown name;
  - `NOTE[:DURATION]` token parsing and its fall-backs;
  - the number of samples each token contributes, plus the 10 ms spacer;
  - the attack/decay/sustain/release segment lengths and envelope;
  - the assembly of one buffer, normalised to peak 32767 and truncated to
    16-bit integers.

  The peak search and the two in-place scalings are methods over an `array`.
  Rendering and the whole `generate_audio` call are loops checked against
  recursive definitions.
- **Agent** (`agent.dfy`) is the composing agent. It models:
  - the `validate_step` checker, as a loop with the source's accumulator;
  - the cleaning of the language model's reply;
  - the generate → validate → route loop and its retry bound;
  - the filter that turns the model-listing response into the sorted ids a
    user may choose from.

  The language model is the parameter `reply`. The HTTP response is the
  parameter `fetch`.

Three support modules hold the Python built-ins that the core relies on:

- `wrappers.dfy`: `Option` and `Result`.
- `text.dfy`: whitespace `split`, `" ".join`, `strip`, `split(":")`,
  `upper`, `replace(pat, "")`, `isdigit`, and code-point ordering with
  `list.sort`.
- `pyfloat.dfy`: the grammar `float(str)` accepts, including `inf`,
  `infinity` and `nan` in any case, an optional sign, underscores between
  digits and exponents. The value is an exact real.

One consequence, proved as `Agent.AcceptedNonFiniteDurationFails`, is worth
knowing. The agent's checker accepts a duration of `inf` or `nan`, because
`float()` parses both. The synthesizer then fails on that same token, because
`int()` refuses a non-finite sample count. A melody the agent calls valid can
therefore still fail to render.

## Model

| member | source | states |
|---|---|---|
| Composer.MarkovComposer.constructor | composer.py:5-6 | A new composer has an empty transition table. |
| Composer.MarkovComposer.LoadData | composer.py:8-17 | The built-in training set is four melodies. |
| Composer.MarkovComposer.Train | composer.py:19-33 | After training, the table is exactly `Learned(melodies)`, whatever it held before. The lemmas below say what that table contains. |
| Composer.MarkovComposer.LearnPairs | composer.py:26-33 | One melody's inner loop adds each of its adjacent pairs, in order, to the table built from the transitions seen so far. |
| Composer.MarkovComposer.Compose | composer.py:35-59 | An untrained composer returns "". Otherwise the melody has `max(length, 1)` notes. It starts at the requested note when that note is a key, and at some key otherwise. Each next note is a learned successor of the current note, or a jump to a key when the current note has no entry. Every note occurs in the table. The returned string joins the notes with spaces and splits back into them. |
| Composer.TableOfSnoc | composer.py:31-33 | Learning one more transition appends its successor to the key's list, creating the list when the key is new. |
| Composer.AppendInTwoSteps | composer.py:31-33 | Creating the missing list and then appending to it is the same as appending to the key's list. |
| Composer.TransitionsMembers | composer.py:25-29 | A pair is a learned transition iff it is two adjacent tokens of some training melody. |
| Composer.TransitionsSound | composer.py:25-29 | Every learned transition comes from some melody and position, and the lemma returns them. |
| Composer.TransitionsComplete | composer.py:25-29 | Every adjacent pair of tokens in every melody is learned. |
| Composer.SuccessorsMembers | composer.py:33 | `b` is listed after `k` iff `(k, b)` is one of the transitions. |
| Composer.SuccessorsOfPresent | composer.py:31-33 | A key that starts some transition has a non-empty successor list. |
| Composer.LearnedKeys | composer.py:27-32 | A note is a key of the trained table iff it is followed by another token in some melody. |
| Composer.LearnedSuccessors | composer.py:27-33 | A key's list is never empty. `b` is in it iff `b` directly follows that key somewhere in the training data. |
| Composer.LearnedInOrder | composer.py:25-33 | Training on two batches gives each key the successors from the first batch followed by those from the second, so first-seen order and duplicates are kept. |
| Composer.LearnedWellFormed | composer.py:26-33 | Every key and successor in a trained table is a whitespace-free token, and no list is empty. |
| Composer.TransitionsLength | composer.py:27 | A melody of n tokens contributes n - 1 transitions, or none when it is blank. |
| Composer.LearnedTotal | composer.py:27-33 | The successor lists together hold one entry per adjacent pair, so duplicates weight the sampling. |
| Composer.LearnedOccurs | composer.py:26-33 | A note that occurs anywhere in a trained table is a token of some training melody. |
| Composer.SuccessorsConcat | composer.py:33 | The successors of a key in concatenated transition lists are the two parts' successors, concatenated. |
| Composer.TransitionsConcat | composer.py:25 | The transitions of concatenated melody lists are the two parts' transitions, concatenated. |
| Text.SplitJoin | composer.py:59 | Joining whitespace-free tokens with spaces and splitting the result gives the tokens back. |
| Text.SplitEmptyIffBlank | synthesizer.py:80 | `split()` yields no tokens iff the string is all whitespace. |
| Text.Split | composer.py:26 | Every token `split()` yields is non-empty and free of whitespace. |
| Text.Strip | music_gen/modules/agent.py:79 | `strip()` returns the middle slice of its input, cut at whitespace-only ends, and the result neither starts nor ends with whitespace. |
| Text.SplitOn | synthesizer.py:88 | `split(":")` yields one more piece than there are colons, and no piece holds a colon. |
| Text.JoinSplitOn | synthesizer.py:88 | Re-joining the pieces of `split(":")` with ":" rebuilds the token. |
| Text.SplitOnTwo | synthesizer.py:88 | `split(":")` gives exactly `[a, b]` iff the token is `a:b` with no colon in `a` or in `b`. |
| Text.SplitOnAbsent | synthesizer.py:93-95 | A token without a colon splits into itself. |
| Text.RemoveAll | music_gen/modules/agent.py:79 | `replace(pat, "")` never lengthens the text or adds characters. For a one-character pattern it is exactly the filter that drops that character and keeps the rest in order. |
| Text.WithoutContents | music_gen/modules/agent.py:79 | The filter keeps every other character, as often as it occurs, and drops every occurrence of the removed one. |
| Text.JoinIsJoinWith | composer.py:59 | `" ".join` is the general `sep.join` with a single space. |
| Text.JoinOnIsJoinWith | music_gen/modules/agent.py:125 | Joining with one separator character is the general `sep.join` with that character. |
| Text.Upper | synthesizer.py:21 | `upper()` keeps the length and upper-cases each ASCII letter in place. |
| Text.LexLeTotal | music_gen/modules/agent.py:201 | Python's string order is total. |
| Text.LexLeTransitive | music_gen/modules/agent.py:201 | Python's string order is transitive. |
| Text.Sort | music_gen/modules/agent.py:201 | `sort()` yields an ordered permutation of the ids. |
| PyFloat.Parse | synthesizer.py:89-92 | `float()` of a blank string is rejected (`ValueError`). |
| PyFloat.ParseShowNat | synthesizer.py:89-92 | `float()` of a decimal numeral is its value. |
| PyFloat.ParseRejectsWord | synthesizer.py:89-92 | `float("abc")` is rejected. |
| PyFloat.ParseUnsigned | synthesizer.py:89-92 | An unsigned token that is not a spelling of infinity or NaN parses as its numeric magnitude, or is rejected. |
| Synthesizer.GetFrequency | synthesizer.py:16-38 | The frequency is never negative. The empty note is 0 Hz with no warning. A warning is issued iff the note text is non-empty and resolves to 0 Hz. |
| Synthesizer.PitchLookup | synthesizer.py:33-38 | A name in the table gives its octave-4 frequency times 2^(octave-4), with no warning. Any other name gives 0 Hz and a warning that names it, never an error. |
| Synthesizer.WithOctave | synthesizer.py:21-28 | A note ending in a digit is that digit's octave of the upper-cased name before it. |
| Synthesizer.WithoutOctave | synthesizer.py:29-31 | A note without a trailing digit is in octave 4. |
| Synthesizer.OctaveScaling | synthesizer.py:26-38 | Adding an octave digit scales the octave-4 frequency by 2^(octave-4). |
| Synthesizer.OctaveShift | synthesizer.py:38 | Any octave's frequency is the octave-4 frequency times 2^(octave-4). |
| Synthesizer.TimesPow2IsProduct | synthesizer.py:38 | The step-by-step doubling and halving equals multiplication by 2^e. |
| Synthesizer.TimesPow2Mono | synthesizer.py:38 | Scaling by 2^e preserves order, and strict order too. |
| Synthesizer.TimesPow2Grows | synthesizer.py:38 | For a positive frequency, a higher octave never lowers the pitch. |
| Synthesizer.Anchor | synthesizer.py:13-38 | "A4", and a bare "a", are 440 Hz with no warning. |
| Synthesizer.UnknownNames | synthesizer.py:25-36 | The flat "Gb3" and the two-digit octave "C10" are unknown names ("GB", "C1"). They give 0 Hz and a warning. |
| Synthesizer.ChromaticTable | synthesizer.py:10-14 | The twelve sharp-spelled pitch classes all have table entries. |
| Synthesizer.ChromaticAscending | synthesizer.py:10-14 | The octave-4 frequencies rise strictly from C to B. |
| Synthesizer.PitchWithOctave | synthesizer.py:16-38 | Pitch class i in octave o (0..9) sounds at its octave-4 frequency times 2^(o-4). |
| Synthesizer.PitchOrder | synthesizer.py:10-38 | A note higher in the chromatic scale, counting octaves, has a strictly higher frequency. |
| Synthesizer.TableOrder | synthesizer.py:10-38 | The scaled table frequencies are strictly increasing in 12·octave + class. |
| Synthesizer.OctaveBoundary | synthesizer.py:10-14 | Every octave-4 frequency lies within one octave above C4. |
| Synthesizer.AcrossOctaves | synthesizer.py:38 | A frequency under one octave above c, raised fewer octaves, stays below any frequency of at least c raised more octaves. |
| Synthesizer.MakeEvent | synthesizer.py:97-101 | "R" and "REST", in any case, are silent with no warning. Any other note takes its `get_frequency` value. |
| Synthesizer.ParseTokenPlain | synthesizer.py:93-95 | A token without a colon lasts one beat. |
| Synthesizer.ParseTokenPair | synthesizer.py:87-92 | `NOTE:DURATION` takes the parsed duration, or one beat when `float()` rejects it. |
| Synthesizer.ParseTokenUnpack | synthesizer.py:87-88 | A token with two or more colons fails to unpack. |
| Synthesizer.Trunc | synthesizer.py:41 | `int()` truncates toward zero. |
| Synthesizer.GapLength | synthesizer.py:116 | The spacer is 441 samples. |
| Synthesizer.WaveKindOf | synthesizer.py:43-50 | "square" and "sawtooth" select their waves. Every other name falls back to a sine. |
| Synthesizer.Zeros | synthesizer.py:110 | `np.zeros(n)` is n silent samples. |
| Synthesizer.GenerateWave | synthesizer.py:40-50 | A wave has `int(44100 · seconds)` samples. |
| Synthesizer.Linspace | synthesizer.py:62-65 | `linspace` returns the requested number of points. |
| Synthesizer.LinspaceBetween | synthesizer.py:62-65 | Every point lies within any interval holding both end points. |
| Synthesizer.SegmentsPartition | synthesizer.py:54-58 | Attack and decay are n/10, release is n/5, and sustain is the rest. None is negative and together they add up to n. |
| Synthesizer.Envelope | synthesizer.py:60-73 | The envelope has one gain per sample. |
| Synthesizer.EnvelopeShape | synthesizer.py:60-67 | Every gain lies in [0, 1]. The sustain segment holds 0.7, and a non-empty attack starts at 0. |
| Synthesizer.ApplyEnvelope | synthesizer.py:52-75 | Shaping keeps the length. |
| Synthesizer.EnvelopeAttenuates | synthesizer.py:75 | Shaping never amplifies a sample, so silence stays silent. |
| Synthesizer.ShapedAttenuates | synthesizer.py:75 | Any elementwise gain in [0, 1] never amplifies a sample. |
| Synthesizer.NoteSeconds | synthesizer.py:103-112 | A token's length in seconds is `beat · duration`. It fails iff that is not finite or its sample count is negative, and says which. |
| Synthesizer.NoteOf | synthesizer.py:105-112 | A note buffer has the token's sample count, and a rest or unknown pitch is silence. |
| Synthesizer.TokenChunksNonFinite | synthesizer.py:103-112 | An `inf` or `nan` duration fails the whole call. |
| Synthesizer.TokenChunksNegative | synthesizer.py:103-112 | A negative sample count fails the whole call. |
| Synthesizer.TokenChunksShape | synthesizer.py:103-117 | Each rendered token appends its note and the 441-sample spacer, and a silent note is all zeros. |
| Synthesizer.RenderChunkCount | synthesizer.py:85-117 | A rendered melody holds two buffers per token. |
| Synthesizer.RenderFailsAt | synthesizer.py:85-117 | The first token that fails decides the error. |
| Synthesizer.RenderKeepsError | synthesizer.py:85-117 | Once a prefix has failed, the whole melody fails with the same error. |
| Synthesizer.RenderStep | synthesizer.py:85-117 | One more rendered token appends its buffers. |
| Synthesizer.RenderNotEmptySignal | synthesizer.py:85-117 | Rendering fails only with a token's own error. |
| Synthesizer.RenderEndsWithGap | synthesizer.py:116-117 | A rendered melody with a token ends with that token's 441-sample spacer. |
| Synthesizer.AudioNeverEmptySignal | synthesizer.py:119-126 | `generate_audio` never takes the peak of a zero-length buffer. |
| Synthesizer.NoneIffBlank | synthesizer.py:80-120 | With a non-zero tempo, the result is "no audio" iff the melody string has no tokens. |
| Synthesizer.TokenChunksLength | synthesizer.py:103-117 | A token contributes its sample count plus 441 samples. |
| Synthesizer.RenderLength | synthesizer.py:85-122 | The joined buffer is as long as the tokens' contributions added up. |
| Synthesizer.AudioLength | synthesizer.py:77-128 | The output has one sample per sample of its tokens' notes and spacers, at `60 / bpm` seconds per beat. |
| Synthesizer.MaxAbsIsMax | synthesizer.py:125 | The peak bounds every sample's magnitude, and some sample reaches it. |
| Synthesizer.NormalizeInRange | synthesizer.py:125-126 | After normalising, every sample is within ±32767 and the peak sample is at ±32767. A silent buffer is left unchanged. |
| Synthesizer.SampleBound | synthesizer.py:125-126 | Each normalised sample is within ±32767, and exactly so at the peak. |
| Synthesizer.ScaledBound | synthesizer.py:126 | Scaling by 32767/peak keeps a sample within ±32767. |
| Synthesizer.Quantize | synthesizer.py:128 | `astype(np.int16)` of an in-range buffer keeps its length and range. A sample becomes 0 iff its magnitude is below 1. |
| Synthesizer.NormalizeQuantizeBounds | synthesizer.py:125-128 | A buffer with sound reaches ±32767 after conversion. A silent one converts to zeros. |
| Synthesizer.MixDownBounded | synthesizer.py:119-128 | The 16-bit output lies within ±32767 and, unless silent, reaches full scale. |
| Synthesizer.AudioBounded | synthesizer.py:77-128 | Every audio result lies within ±32767 and, unless silent, reaches full scale. |
| Synthesizer.Peak | synthesizer.py:125 | The loop returns the largest sample magnitude. |
| Synthesizer.ScaleToPeak | synthesizer.py:125-126 | In place, the array becomes its normalised contents. |
| Synthesizer.ScaleBy | synthesizer.py:126 | In place, every sample is multiplied by the factor. |
| Synthesizer.Mix | synthesizer.py:119-128 | The concatenate, normalise and convert steps compute `MixDown`, whose bounds are proved above. |
| Synthesizer.RenderAll | synthesizer.py:85-117 | The token loop computes `Render`, including its first error. |
| Synthesizer.GenerateAudio | synthesizer.py:77-128 | The whole call computes `AudioOf`. It fails on a zero tempo, has no audio for a blank melody, and otherwise has the length and bounds proved above. |
| Agent.CleanContent | music_gen/modules/agent.py:79 | The cleaned reply holds no backtick and is never longer than the reply. |
| Agent.RemoveAllAbsent | music_gen/modules/agent.py:79 | Removing a pattern that does not occur changes nothing. |
| Agent.CleanDropsFences | music_gen/modules/agent.py:79 | A reply with no "python" tag loses its surrounding whitespace and its backticks, and nothing else. |
| Agent.CleanFencedReply | music_gen/modules/agent.py:79 | The usual fenced reply "```python", newline, melody, newline, "```" cleans to the melody between two newlines, when the melody has no backtick and no "python". |
| Agent.CleanKeepsBareReply | music_gen/modules/agent.py:79 | A reply that is already trimmed, with no backtick and no "python", passes through unchanged. |
| Agent.Describe | music_gen/modules/agent.py:101-120 | A complaint starts with the token it is about. |
| Agent.TokenFlags | music_gen/modules/agent.py:98-120 | Every complaint raised for a token names that token. A token without ':' draws only "missing duration". One that does not split into exactly two pieces draws only "bad format". A token draws no complaint iff it splits into two pieces whose note is acceptable and whose duration `float()` takes. |
| Agent.NoteFlags | music_gen/modules/agent.py:112-114 | A note is flagged iff it is neither "R"/"REST" in any case nor at least two characters long. |
| Agent.DurationFlags | music_gen/modules/agent.py:116-120 | A duration is flagged iff `float()` rejects it. |
| Agent.FlatMapEmpty | music_gen/modules/agent.py:98-122 | No complaint was collected iff no token drew one. |
| Agent.Validate | music_gen/modules/agent.py:83-125 | A verdict is valid iff its error is empty, and a valid melody has at least two tokens. Empty notes give "Output was empty". Non-empty notes with fewer than two tokens, whitespace-only ones included, give "Melody too short". |
| Agent.ValidateStep | music_gen/modules/agent.py:83-125 | The loop with its flag and list of complaints returns exactly `Validate`'s verdict. |
| Agent.CheckToken | music_gen/modules/agent.py:99-120 | One pass of the loop body appends exactly the token's complaints to the list, and clears the valid flag iff the token draws a complaint. |
| Agent.ValidIffEveryTokenAccepted | music_gen/modules/agent.py:87-123 | Notes are valid iff they have at least two tokens and no token draws a complaint. |
| Agent.TokenAcceptedIff | music_gen/modules/agent.py:99-120 | `note:duration` is accepted iff the note is acceptable and `float()` takes the duration. |
| Agent.AcceptedTokenPlays | music_gen/modules/agent.py:98-120 | An accepted token parses in the synthesizer, with the same note and the duration `float()` gives. |
| Agent.AcceptedNonFiniteDurationFails | music_gen/modules/agent.py:116-120 | An accepted token with an `inf` or `nan` duration still fails in the synthesizer. |
| Agent.ErrorNamesFirstRejectedToken | music_gen/modules/agent.py:98-125 | The error starts with "Invalid tokens: " and the first complaint about the first rejected token. |
| Agent.ErrorListsFirstThree | music_gen/modules/agent.py:122-125 | The error lists the first three complaints, or all of them when there are fewer, in order and comma-separated. |
| Agent.GenerateStep | music_gen/modules/agent.py:48-81 | An attempt counts one more retry, keeps the topic and verdict, and stores backtick-free notes. |
| Agent.ValidateNode | music_gen/modules/agent.py:83-125 | The node records `validate_step`'s verdict on the notes, flag and error both, and leaves the topic, the notes and the retry count unchanged. |
| Agent.RunFromBounds | music_gen/modules/agent.py:127-132 | From at most three attempts, the loop makes at least one more and stops by the fourth. When the next attempt is valid, the run ends with exactly that attempt's state. It stops early only on a valid melody, and the topic is kept. |
| Agent.RunBounds | music_gen/modules/agent.py:127-143 | A run makes one to four attempts. A valid first reply ends it after one attempt. It ends valid unless all four failed, with a flag that agrees with its notes. |
| Agent.RunEndsGenerated | music_gen/modules/agent.py:48-81 | The final notes are a cleaned reply of the language model. |
| Agent.Run | music_gen/modules/agent.py:134-143 | The loop over the graph nodes computes `RunFrom` from the initial state, with the bounds above. |
| Agent.Entry | music_gen/modules/agent.py:178-193 | The body raises iff the model is not an object, or its id is missing or not a string, or its pricing is consulted (the id lacks ":free") and is not an object. Otherwise the entry carries the model's id, and is free iff the id ends in ":free" or the prompt and completion prices both read as zero. |
| Agent.FreeEntry | music_gen/modules/agent.py:183-193 | A free model whose id lacks ":free" has a pricing object whose prompt and completion prices are both zero. |
| Agent.FilterModels | music_gen/modules/agent.py:177-199 | The filtering loop computes `Kept`, including the failure a malformed entry raises. |
| Agent.KeptNoneGrows | music_gen/modules/agent.py:178-199 | Once a malformed entry has raised, later entries do not matter. |
| Agent.KeptFails | music_gen/modules/agent.py:178-199 | Filtering fails iff some entry is malformed. |
| Agent.KeptMembers | music_gen/modules/agent.py:178-199 | An id is kept iff some entry has it and is free, or every model is wanted. |
| Agent.GetAvailableModels | music_gen/modules/agent.py:145-214 | The method computes `AvailableModels`. The rows below prove the failure paths, the fallback on an empty free list, the sorted selection and the free-only guarantee for that function. |
| Agent.DefaultsAreFree | music_gen/modules/agent.py:151-158 | Every default id ends in ":free". |
| Agent.FallsBackToDefaults | music_gen/modules/agent.py:160-214 | Without a key, on an unreachable service, a non-200 status, an unreadable body, a malformed listing or a malformed entry, the result is the six defaults. |
| Agent.ListingSelects | music_gen/modules/agent.py:173-207 | A successful listing is sorted. It holds an id iff some entry with that id is selected, and it holds each kept id as often as the filter kept it. |
| Agent.NoFreeModelFallsBack | music_gen/modules/agent.py:203-205 | When only free models are wanted and no listed model is free, the six defaults are returned. |
| Agent.OnlyFreeIds | music_gen/modules/agent.py:145-214 | With `only_free`, every id returned is free: a default, or a listed free entry. |

## Left out

- Printing, the WAV writer (`save_wav`), the user interface, the database, scheduling and the visualiser are not part of this model. Only the functions above are core.
- The HTTP request and the LangGraph runtime are not modelled. The listing response is the parameter `fetch`. An exception on the way, or a timeout, is its `Unreachable` case.
- The language model is the parameter `reply`, a function of the attempt number and the user message. The system prompt, the temperature and the non-determinism of the reply are not modelled. Neither is which model is asked.
- Samples are exact reals. Floating-point rounding is not modelled, and neither are the sine, square and sawtooth functions: the waveform is the parameter `shape`.
- The sample rate is fixed at the default of 44100 Hz, so the spacer is always 441 samples.
- `apply_envelope`'s pad and cut branches (synthesizer.py:69-73) are not modelled as branches. The segment lengths always add up to the buffer length (`SegmentsPartition`), so neither branch can run.
- Synthesizer.Quantize: only buffers within ±32767 are converted, because `generate_audio` only converts normalised buffers, and NumPy's conversion of out-of-range floats is platform-dependent.
- Composer.MarkovComposer.Compose: `random.choice` is an arbitrary pick. The model proves the properties for every choice, but says nothing about the distribution.
- Synthesizer.TimesPow2IsProduct: `2 ** (octave - 4)` is computed by repeated doubling or halving. This lemma shows that equals the power.
- `int()`, `np.zeros` and `np.linspace` raise on a non-finite or negative length. These are modelled as the errors `NonFiniteDuration` and `NegativeLength`.
- JSON numbers are finite reals. Overflow to infinity and duplicate object keys are not modelled.
- Agent.ShouldContinue: has no contract of its own. `RunFromBounds` and `RunBounds` state what the routing guarantees: it stops at the first valid melody, and otherwise after the fourth attempt.
- Sample counts are truncated with `int()`, not rounded.
- A token with two colons fails to unpack (`UnpackError`).
- Text.Upper: models `str.upper()` on ASCII letters only; every other character is kept. Python maps non-ASCII letters too, and can change the length (`'ß'.upper()` is `"SS"`). The model takes its input text as ASCII.
- Synthesizer.GetFrequency: the octave digit is an ASCII digit. Python's `isdigit()` also accepts other Unicode digits. For `"A٣"` Python reads octave 3 and returns 220 Hz, and for `"C²"` its `int()` raises `ValueError`. The model reads both as unknown names, giving 0 Hz and a warning.
- Synthesizer.WithoutOctave: a note ending in a non-ASCII Unicode digit counts as having no octave here, so it gets octave 4. Python reads that digit as the octave, or raises on it.
- PyFloat.Parse: values are exact reals, so a huge literal stays finite. Python's `float("1e400")` is infinity, so `"C4:1e400"` passes the agent's checker, and then `generate_audio` raises `OverflowError`. The model renders a finite buffer for it instead. Rounding to the nearest double and underflow to zero are not modelled either.
- PyFloat.Parse: accepts ASCII digits only. Python's `float("٢")` is 2.0, but the model rejects it. `ParseToken` then falls back to one beat (synthesizer.py:89-92), and the agent's checker flags a duration that agent.py:116-120 accepts.
