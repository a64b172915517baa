/** The melody-string front end of the synthesizer: pitch resolution,
    `NOTE[:DURATION]` token parsing, the per-token sample bookkeeping, the
    attack/decay/sustain/release envelope and the assembly of one normalised
    16-bit buffer. Samples are reals; the periodic waveform itself (NumPy's
    `sin`, SciPy's `square` and `sawtooth`) is a parameter. */
module Synthesizer {
  import opened Wrappers
  import opened Text
  import PyFloat

  // ---------------------------------------------------------------------
  // Pitch resolution
  // ---------------------------------------------------------------------

  /** Octave-4 frequencies in Hz of the twelve sharp-spelled pitch classes. */
  const NoteFreqs: map<string, real> := map[
    "C" := 261.63, "C#" := 277.18, "D" := 293.66, "D#" := 311.13,
    "E" := 329.63, "F" := 349.23, "F#" := 369.99, "G" := 392.00,
    "G#" := 415.30, "A" := 440.00, "A#" := 466.16, "B" := 493.88]

  /** The pitch classes in chromatic order, from C up to B. */
  const Chromatic: seq<string> :=
    ["C", "C#", "D", "D#", "E", "F", "F#", "G", "G#", "A", "A#", "B"]

  /** Python's `2 ** e` for an integer exponent, as a real. */
  function Pow2(e: int): real
    decreases if e >= 0 then e else -e
  {
    if e == 0 then 1.0 else if e > 0 then 2.0 * Pow2(e - 1) else Pow2(e + 1) / 2.0
  }

  /** `f * 2 ** e`, written as `e` doublings of `f` (or `-e` halvings). */
  function TimesPow2(f: real, e: int): real
    decreases if e >= 0 then e else -e
  {
    if e == 0 then f else if e > 0 then 2.0 * TimesPow2(f, e - 1) else TimesPow2(f, e + 1) / 2.0
  }

  /** The doublings are the product with `2 ** e`. */
  lemma {:induction false} TimesPow2IsProduct(f: real, e: int)
    ensures TimesPow2(f, e) == f * Pow2(e)
    decreases if e >= 0 then e else -e
  {
    if e > 0 {
      TimesPow2IsProduct(f, e - 1);
      assert 2.0 * (f * Pow2(e - 1)) == f * (2.0 * Pow2(e - 1));
    } else if e < 0 {
      TimesPow2IsProduct(f, e + 1);
      assert (f * Pow2(e + 1)) / 2.0 == f * (Pow2(e + 1) / 2.0);
    }
  }

  lemma TimesPow2Succ(f: real, e: int)
    ensures TimesPow2(f, e + 1) == 2.0 * TimesPow2(f, e)
  {
  }

  lemma {:induction false} TimesPow2Zero(e: int)
    ensures TimesPow2(0.0, e) == 0.0
    decreases if e >= 0 then e else -e
  {
    if e > 0 {
      TimesPow2Zero(e - 1);
    } else if e < 0 {
      TimesPow2Zero(e + 1);
    }
  }

  lemma {:induction false} TimesPow2Double(f: real, e: int)
    ensures TimesPow2(2.0 * f, e) == 2.0 * TimesPow2(f, e)
    decreases if e >= 0 then e else -e
  {
    if e > 0 {
      TimesPow2Double(f, e - 1);
    } else if e < 0 {
      TimesPow2Double(f, e + 1);
    }
  }

  /** Scaling by `2 ** e` keeps the order of two values. */
  lemma {:induction false} TimesPow2Mono(f: real, g: real, e: int)
    requires f <= g
    ensures TimesPow2(f, e) <= TimesPow2(g, e)
    ensures f < g ==> TimesPow2(f, e) < TimesPow2(g, e)
    decreases if e >= 0 then e else -e
  {
    if e > 0 {
      TimesPow2Mono(f, g, e - 1);
    } else if e < 0 {
      TimesPow2Mono(f, g, e + 1);
    }
  }

  /** A positive value stays positive, and grows with the exponent. */
  lemma {:induction false} TimesPow2Grows(f: real, e: int, e': int)
    requires f > 0.0 && e <= e'
    ensures 0.0 < TimesPow2(f, e) <= TimesPow2(f, e')
    decreases e' - e
  {
    TimesPow2Zero(e);
    TimesPow2Mono(0.0, f, e);
    if e < e' {
      TimesPow2Succ(f, e);
      TimesPow2Grows(f, e + 1, e');
    }
  }

  /** A frequency and, when the pitch name was not found, the name the
      warning reports. */
  datatype Lookup = Lookup(freq: real, warning: Option<string>)

  /** The pitch name and octave of an upper-cased, non-empty note: a single
      trailing digit is the octave, otherwise the octave is 4. */
  function NameAndOctave(s: string): (string, nat)
    requires s != []
  {
    if IsDigit(s[|s| - 1]) then (s[..|s| - 1], DigitValue(s[|s| - 1])) else (s, 4)
  }

  /** `get_frequency`: the frequency of a note such as "C4", "a#5" or "E".
      Unknown names give 0 Hz with a warning, never an error. */
  function GetFrequency(noteStr: string): (r: Lookup)
    ensures r.freq >= 0.0
    ensures r.warning.Some? <==> (noteStr != [] && r.freq == 0.0)
    ensures noteStr == [] ==> r == Lookup(0.0, None)
  {
    if Upper(noteStr) == [] then Lookup(0.0, None)
    else PitchLookup(NameAndOctave(Upper(noteStr)).0, NameAndOctave(Upper(noteStr)).1)
  }

  /** The table entry for a pitch name times `2 ** (octave - 4)`. */
  function PitchLookup(name: string, octave: nat): (r: Lookup)
    ensures r.freq >= 0.0
    ensures r.warning.Some? <==> r.freq == 0.0
    ensures r.warning.Some? <==> name !in NoteFreqs
    ensures name !in NoteFreqs ==> r == Lookup(0.0, Some(name))
    ensures name in NoteFreqs ==> r == Lookup(TimesPow2(NoteFreqs[name], octave - 4), None)
  {
    if name in NoteFreqs then
      assert NoteFreqs[name] > 0.0;
      TimesPow2Grows(NoteFreqs[name], octave - 4, octave - 4);
      Lookup(TimesPow2(NoteFreqs[name], octave - 4), None)
    else Lookup(0.0, Some(name))
  }

  /** A note that carries no octave digit is resolved at octave 4, and an
      appended octave digit `d` scales it by `2 ** (d - 4)`. */
  lemma OctaveScaling(name: string, d: char)
    requires IsDigit(d)
    requires name == [] || !IsDigit(name[|name| - 1])
    ensures GetFrequency(name + [d]).freq == TimesPow2(GetFrequency(name).freq, DigitValue(d) - 4)
  {
    WithOctave(name, d);
    if name != [] {
      WithoutOctave(name);
      OctaveShift(Upper(name), DigitValue(d));
    } else {
      assert "" !in NoteFreqs;
      TimesPow2Zero(DigitValue(d) - 4);
    }
  }

  /** A trailing digit is the octave of the upper-cased name before it. */
  lemma WithOctave(name: string, d: char)
    requires IsDigit(d)
    ensures GetFrequency(name + [d]) == PitchLookup(Upper(name), DigitValue(d))
  {
    var u := Upper(name);
    var s := Upper(name + [d]);
    assert s == u + [d];
    assert s[..|s| - 1] == u;
    FrequencyOfName(name + [d], u, DigitValue(d));
  }

  /** Without a trailing digit the whole upper-cased note is the name, at
      octave 4. */
  lemma WithoutOctave(name: string)
    requires name != [] && !IsDigit(name[|name| - 1])
    ensures GetFrequency(name) == PitchLookup(Upper(name), 4)
  {
    assert !IsDigit(Upper(name)[|name| - 1]);
    FrequencyOfName(name, Upper(name), 4);
  }

  lemma FrequencyOfName(noteStr: string, name: string, octave: nat)
    requires noteStr != [] && NameAndOctave(Upper(noteStr)) == (name, octave)
    ensures GetFrequency(noteStr) == PitchLookup(name, octave)
  {
  }

  /** Moving a name from octave 4 to octave `o` scales its frequency by
      `2 ** (o - 4)`; an unknown name stays at 0 Hz. */
  lemma OctaveShift(name: string, o: nat)
    ensures PitchLookup(name, o).freq == TimesPow2(PitchLookup(name, 4).freq, o - 4)
  {
    if name !in NoteFreqs {
      TimesPow2Zero(o - 4);
    }
  }

  /** The tuning anchor: "A4" and "a" both resolve to 440 Hz. */
  lemma Anchor()
    ensures GetFrequency("A4") == Lookup(440.0, None)
    ensures GetFrequency("a") == Lookup(440.0, None)
  {
    assert Upper("A4") == "A4";
    assert "A4"[..1] == "A";
    assert Upper("a") == "A";
  }

  /** Flat spellings are not in the table: "Gb3" looks up "GB" and falls back
      to silence with a warning. Only one trailing digit is an octave: "C10"
      looks up "C1". */
  lemma UnknownNames()
    ensures GetFrequency("Gb3") == Lookup(0.0, Some("GB"))
    ensures GetFrequency("C10") == Lookup(0.0, Some("C1"))
  {
    assert Upper("Gb3") == "GB3";
    assert "GB3"[..2] == "GB";
    assert Upper("C10") == "C10";
    assert "C10"[..2] == "C1";
  }

  /** The table's frequencies in chromatic order. */
  const Octave4: seq<real> :=
    [261.63, 277.18, 293.66, 311.13, 329.63, 349.23, 369.99, 392.00, 415.30, 440.00, 466.16, 493.88]

  /** The table holds exactly the twelve chromatic names, at the frequencies
      of `Octave4`. */
  lemma ChromaticTable(i: nat)
    requires i < |Chromatic|
    ensures Chromatic[i] in NoteFreqs && NoteFreqs[Chromatic[i]] == Octave4[i]
  {
    if i == 0 {} else if i == 1 {} else if i == 2 {} else if i == 3 {}
    else if i == 4 {} else if i == 5 {} else if i == 6 {} else if i == 7 {}
    else if i == 8 {} else if i == 9 {} else if i == 10 {} else {}
  }

  /** The table rises strictly through the chromatic scale. */
  lemma {:induction false} ChromaticAscending(i: nat, j: nat)
    requires i < j < |Octave4|
    ensures Octave4[i] < Octave4[j]
    decreases j - i
  {
    if i + 1 < j {
      ChromaticAscending(i + 1, j);
    }
  }

  /** The digit character for `0 <= o <= 9`. */
  function DigitChar(o: nat): (c: char)
    requires o <= 9
    ensures IsDigit(c) && DigitValue(c) == o
  {
    ('0' as int + o) as char
  }

  lemma PitchWithOctave(i: nat, o: nat)
    requires i < |Chromatic| && o <= 9
    ensures GetFrequency(Chromatic[i] + [DigitChar(o)]).freq == TimesPow2(Octave4[i], o - 4)
  {
    ChromaticTable(i);
    var name := Chromatic[i];
    var s := name + [DigitChar(o)];
    assert Upper(s) == s;
    assert s[..|s| - 1] == name;
    FrequencyOfName(s, name, o);
  }

  /** Frequency rises strictly with pitch: across the twelve pitch classes
      and the octaves 0 to 9, a higher note never sounds lower. */
  lemma PitchOrder(i: nat, o: nat, j: nat, p: nat)
    requires i < |Chromatic| && j < |Chromatic| && o <= 9 && p <= 9
    requires 12 * o + i < 12 * p + j
    ensures GetFrequency(Chromatic[i] + [DigitChar(o)]).freq
          < GetFrequency(Chromatic[j] + [DigitChar(p)]).freq
  {
    PitchWithOctave(i, o);
    PitchWithOctave(j, p);
    TableOrder(i, o, j, p);
  }

  lemma TableOrder(i: nat, o: nat, j: nat, p: nat)
    requires i < |Octave4| && j < |Octave4| && o <= 9 && p <= 9
    requires 12 * o + i < 12 * p + j
    ensures TimesPow2(Octave4[i], o - 4) < TimesPow2(Octave4[j], p - 4)
  {
    OctaveBoundary(i, j);
    if o == p {
      ChromaticAscending(i, j);
      TimesPow2Mono(Octave4[i], Octave4[j], o - 4);
    } else {
      AcrossOctaves(Octave4[i], Octave4[j], Octave4[0], o - 4, p - 4);
    }
  }

  /** Every pitch class lies below twice the frequency of C, and C is the
      lowest. */
  lemma OctaveBoundary(i: nat, j: nat)
    requires i < |Octave4| && j < |Octave4|
    ensures 0.0 < Octave4[i] < 2.0 * Octave4[0]
    ensures Octave4[0] <= Octave4[j]
  {
    if i < 11 { ChromaticAscending(i, 11); }
    if j > 0 { ChromaticAscending(0, j); }
  }

  /** A note below `2c` in a lower octave sounds below a note of at least
      `c` in a higher one: `fi 2^e < 2c 2^e = c 2^(e+1) <= c 2^e' <= fj 2^e'`. */
  lemma AcrossOctaves(fi: real, fj: real, c: real, e: int, e': int)
    requires 0.0 < fi < 2.0 * c && 0.0 < c <= fj && e < e'
    ensures TimesPow2(fi, e) < TimesPow2(fj, e')
  {
    TimesPow2Mono(fi, 2.0 * c, e);
    TimesPow2Double(c, e);
    TimesPow2Succ(c, e);
    TimesPow2Grows(c, e + 1, e');
    TimesPow2Mono(c, fj, e');
  }

  // ---------------------------------------------------------------------
  // Token parsing
  // ---------------------------------------------------------------------

  /** One parsed melody token: the note text, the duration multiplier in
      beats, the resolved frequency and the pitch warning, if any. */
  datatype NoteEvent = NoteEvent(note: string, multiplier: PyFloat.Float, freq: real, warning: Option<string>)

  /** The exceptions `generate_audio` lets escape. */
  datatype SynthError =
    | ZeroTempo                  // 60.0 / bpm with bpm == 0
    | UnpackError(token: string) // two or more ':' in a token
    | NonFiniteDuration(token: string) // int() of an infinite or NaN length
    | NegativeLength(token: string)    // numpy refuses a negative sample count
    | EmptySignal                // np.max of a zero-length buffer

  predicate IsRest(noteStr: string) {
    Upper(noteStr) == "R" || Upper(noteStr) == "REST"
  }

  /** Resolves the note text of a token: "R"/"REST" in any case are silent,
      everything else goes through `GetFrequency`. */
  function MakeEvent(noteStr: string, multiplier: PyFloat.Float): (e: NoteEvent)
    ensures e.note == noteStr && e.multiplier == multiplier
    ensures IsRest(noteStr) ==> e.freq == 0.0 && e.warning == None
    ensures !IsRest(noteStr) ==> e.freq == GetFrequency(noteStr).freq
  {
    if IsRest(noteStr) then NoteEvent(noteStr, multiplier, 0.0, None)
    else NoteEvent(noteStr, multiplier, GetFrequency(noteStr).freq, GetFrequency(noteStr).warning)
  }

  /** The duration written after the ':' (1 beat when it does not parse). */
  function DurationOf(text: string): PyFloat.Float {
    match PyFloat.Parse(text)
    case Some(f) => f
    case None => PyFloat.Finite(1.0)
  }

  /** Parses one `NOTE` or `NOTE:DURATION` token. */
  function ParseToken(token: string): Result<NoteEvent, SynthError> {
    if ':' !in token then Ok(MakeEvent(token, PyFloat.Finite(1.0)))
    else if |SplitOn(token, ':')| != 2 then Err(UnpackError(token))
    else Ok(MakeEvent(SplitOn(token, ':')[0], DurationOf(SplitOn(token, ':')[1])))
  }

  lemma CountZero(s: string, c: char)
    ensures Count(s, c) == 0 <==> c !in s
  {
    if s != [] {
      CountZero(s[1..], c);
      assert s == [s[0]] + s[1..];
    }
  }

  /** A token without ':' is a note of one beat. */
  lemma ParseTokenPlain(token: string)
    requires ':' !in token
    ensures ParseToken(token) == Ok(MakeEvent(token, PyFloat.Finite(1.0)))
  {
  }

  /** A token with exactly one ':' is the note before it, lasting what the
      text after it parses to, or one beat when that text is not a number. */
  lemma ParseTokenPair(note: string, duration: string)
    requires ':' !in note && ':' !in duration
    ensures ParseToken(note + ":" + duration) == Ok(MakeEvent(note, DurationOf(duration)))
  {
    SplitPair(note, duration);
  }

  lemma SplitPair(note: string, duration: string)
    requires ':' !in note && ':' !in duration
    ensures ':' in note + ":" + duration
    ensures SplitOn(note + ":" + duration, ':') == [note, duration]
  {
    var token := note + ":" + duration;
    SplitOnTwo(token, ':', note, duration);
    assert token[|note|] == ':';
  }

  /** With two or more ':' the unpacking fails. */
  lemma ParseTokenUnpack(token: string)
    requires Count(token, ':') >= 2
    ensures ParseToken(token) == Err(UnpackError(token))
  {
    CountZero(token, ':');
  }

  // ---------------------------------------------------------------------
  // Sample counts, waves, envelope
  // ---------------------------------------------------------------------

  /** Python's `int(x)` on a finite float: truncation toward zero. */
  function Trunc(x: real): (n: int)
    ensures x >= 0.0 ==> n as real <= x < n as real + 1.0
    ensures x < 0.0 ==> n as real - 1.0 < x <= n as real
  {
    if x >= 0.0 then x.Floor else -((-x).Floor)
  }

  /** `int(sample_rate * seconds)` at the default rate of 44100 Hz: the
      number of samples of a span. */
  function SampleCount(seconds: real): int {
    Trunc(44100.0 * seconds)
  }

  /** The 10 ms spacer after every token, `int(sample_rate * 0.01)`: 441
      samples at 44100 Hz. */
  function GapLength(): (n: nat)
    ensures n == 441
  {
    SampleCount(0.01)
  }

  datatype WaveKind = Sine | Square | Sawtooth

  /** The waveform a `wave_type` name selects: unknown names fall back to a
      sine. */
  function WaveKindOf(waveType: string): (k: WaveKind)
    ensures k == Square <==> waveType == "square"
    ensures k == Sawtooth <==> waveType == "sawtooth"
  {
    if waveType == "sine" then Sine
    else if waveType == "square" then Square
    else if waveType == "sawtooth" then Sawtooth
    else Sine
  }

  /** A periodic waveform: its value at a phase given in cycles. */
  type Shape = (WaveKind, real) -> real

  function Zeros(n: nat): (z: seq<real>)
    ensures |z| == n && forall i :: 0 <= i < n ==> z[i] == 0.0
  {
    seq(n, i => 0.0)
  }

  /** `generate_wave`: `int(sample_rate * seconds)` samples of the waveform
      taken on the grid `t_i = i * seconds / n` (end point excluded). */
  function GenerateWave(shape: Shape, kind: WaveKind, freq: real, seconds: real): (w: seq<real>)
    requires SampleCount(seconds) >= 0
    ensures |w| == SampleCount(seconds)
  {
    var n := SampleCount(seconds);
    seq(n, i requires 0 <= i < n => shape(kind, freq * (i as real * (seconds / n as real))))
  }

  /** NumPy's `linspace(start, stop, num)` with its end point. */
  function Linspace(start: real, stop: real, num: nat): (r: seq<real>)
    ensures |r| == num
  {
    seq(num, i requires 0 <= i < num =>
      if num == 1 then start else start + (stop - start) * (i as real / (num - 1) as real))
  }

  lemma Between(start: real, stop: real, f: real, lo: real, hi: real)
    requires lo <= start <= hi && lo <= stop <= hi && 0.0 <= f <= 1.0
    ensures lo <= start + (stop - start) * f <= hi
  {
    var d := stop - start;
    var p := d * f;
    ProductBetween(d, f, p);
    assert start + (stop - start) * f == start + p;
  }

  /** A fraction of a difference lies between 0 and the difference. */
  lemma ProductBetween(d: real, f: real, p: real)
    requires 0.0 <= f <= 1.0 && p == d * f
    ensures d >= 0.0 ==> 0.0 <= p <= d
    ensures d < 0.0 ==> d <= p <= 0.0
  {
  }

  lemma FractionInUnit(i: nat, n: nat)
    requires i < n && n > 1
    ensures 0.0 <= i as real / (n - 1) as real <= 1.0
  {
  }

  /** Every point of a `linspace` lies between its two ends. */
  lemma LinspaceBetween(start: real, stop: real, num: nat, lo: real, hi: real)
    requires lo <= start <= hi && lo <= stop <= hi
    ensures forall i :: 0 <= i < num ==> lo <= Linspace(start, stop, num)[i] <= hi
  {
    forall i | 0 <= i < num ensures lo <= Linspace(start, stop, num)[i] <= hi {
      if num > 1 {
        FractionInUnit(i, num);
        var f := i as real / (num - 1) as real;
        assert Linspace(start, stop, num)[i] == start + (stop - start) * f;
        Between(start, stop, f, lo, hi);
      }
    }
  }

  /** The segment lengths of the envelope for a buffer of `n` samples:
      attack `int(0.1 n)`, decay `int(0.1 n)`, release `int(0.2 n)` and the
      rest for the sustain. */
  function Segments(n: nat): (int, int, int, int) {
    var attack := Trunc(0.1 * n as real);
    var decay := Trunc(0.1 * n as real);
    var release := Trunc(0.2 * n as real);
    (attack, decay, n - attack - decay - release, release)
  }

  /** The four segments are non-negative and add up to exactly `n`; attack
      and decay are `n / 10` and release `n / 5` (integer division). */
  lemma SegmentsPartition(n: nat)
    ensures var (a, d, s, r) := Segments(n);
      && a == n / 10 && d == n / 10 && r == n / 5
      && a >= 0 && d >= 0 && s >= 0 && r >= 0
      && a + d + s + r == n
  {
    var a := Trunc(0.1 * n as real);
    var r := Trunc(0.2 * n as real);
    assert a == n / 10 by {
      assert (n / 10) as real <= 0.1 * n as real < (n / 10) as real + 1.0;
    }
    assert r == n / 5 by {
      assert (n / 5) as real <= 0.2 * n as real < (n / 5) as real + 1.0;
    }
  }

  /** The amplitude curve: a 0 -> 1 attack ramp, a 1 -> 0.7 decay ramp, a
      flat 0.7 sustain and a 0.7 -> 0 release ramp. The four segments always
      fill the `n` samples exactly, so the source's padding and cutting
      branches are never taken and are not written here. */
  function Envelope(n: nat): (e: seq<real>)
    ensures |e| == n
  {
    SegmentsPartition(n);
    var (a, d, s, r) := Segments(n);
    Linspace(0.0, 1.0, a) + Linspace(1.0, 0.7, d) + seq(s, i => 0.7) + Linspace(0.7, 0.0, r)
  }

  /** The envelope stays within [0, 1], starts its attack at 0 and holds
      0.7 throughout the sustain. */
  lemma EnvelopeShape(n: nat)
    ensures var (a, d, s, r) := Segments(n);
      && (forall i :: 0 <= i < n ==> 0.0 <= Envelope(n)[i] <= 1.0)
      && (forall i :: a + d <= i < a + d + s ==> Envelope(n)[i] == 0.7)
      && (a > 0 ==> Envelope(n)[0] == 0.0)
  {
    SegmentsPartition(n);
    var (a, d, s, r) := Segments(n);
    LinspaceBetween(0.0, 1.0, a, 0.0, 1.0);
    LinspaceBetween(1.0, 0.7, d, 0.0, 1.0);
    LinspaceBetween(0.7, 0.0, r, 0.0, 1.0);
  }

  /** `apply_envelope`: the buffer multiplied sample by sample by the
      envelope of its own length. */
  function ApplyEnvelope(wave: seq<real>): (shaped: seq<real>)
    ensures |shaped| == |wave|
  {
    Shaped(wave, Envelope(|wave|))
  }

  /** The sample-by-sample product of a buffer and a gain curve. */
  function Shaped(wave: seq<real>, e: seq<real>): (shaped: seq<real>)
    requires |e| == |wave|
    ensures |shaped| == |wave|
  {
    seq(|wave|, i requires 0 <= i < |wave| => wave[i] * e[i])
  }

  function Abs(x: real): real {
    if x < 0.0 then -x else x
  }

  /** Shaping never amplifies: each sample keeps at most its magnitude, and
      silence stays silent. */
  lemma EnvelopeAttenuates(wave: seq<real>)
    ensures forall i :: 0 <= i < |wave| ==> Abs(ApplyEnvelope(wave)[i]) <= Abs(wave[i])
  {
    EnvelopeUnit(|wave|);
    ShapedAttenuates(wave, Envelope(|wave|));
  }

  /** A gain curve within [0, 1] never amplifies a sample. */
  lemma ShapedAttenuates(wave: seq<real>, e: seq<real>)
    requires |e| == |wave|
    requires forall i :: 0 <= i < |e| ==> 0.0 <= e[i] <= 1.0
    ensures forall i :: 0 <= i < |wave| ==> Abs(Shaped(wave, e)[i]) <= Abs(wave[i])
  {
    forall i | 0 <= i < |wave| ensures Abs(Shaped(wave, e)[i]) <= Abs(wave[i]) {
      AttenuatedAt(wave, e, Shaped(wave, e), i);
    }
  }

  lemma EnvelopeUnit(n: nat)
    ensures forall i :: 0 <= i < n ==> 0.0 <= Envelope(n)[i] <= 1.0
  {
    EnvelopeShape(n);
  }

  /** One sample of an envelope-shaped wave. */
  lemma AttenuatedAt(wave: seq<real>, e: seq<real>, shaped: seq<real>, i: nat)
    requires i < |wave| == |e| == |shaped|
    requires 0.0 <= e[i] <= 1.0 && shaped[i] == wave[i] * e[i]
    ensures Abs(shaped[i]) <= Abs(wave[i])
  {
    ProductBetween(wave[i], e[i], shaped[i]);
  }

  // ---------------------------------------------------------------------
  // Assembly: the buffers of every token, then normalisation
  // ---------------------------------------------------------------------

  /** The buffers one token appends: its note (a shaped wave when the
      frequency is positive, zeros otherwise) and the spacer, or the error
      Python raises on the token. */
  function TokenChunks(beat: real, kind: WaveKind, shape: Shape, token: string): Result<seq<seq<real>>, SynthError>
  {
    match ParseToken(token)
    case Err(e) => Err(e)
    case Ok(event) =>
      match NoteSeconds(beat, token, event)
      case Err(e) => Err(e)
      case Ok(seconds) => Ok(NoteAndGap(shape, kind, event.freq, seconds))
  }

  /** The length in seconds of a parsed token, `beat_duration * duration`,
      or the error raised when it has no sample count: `int()` refuses an
      infinite or NaN length, and numpy a negative count. */
  function NoteSeconds(beat: real, token: string, event: NoteEvent): (r: Result<real, SynthError>)
    ensures r.Ok? <==> event.multiplier.Finite? && SampleCount(beat * event.multiplier.value) >= 0
    ensures r.Ok? ==> r.value == beat * event.multiplier.value
    ensures r.Err? ==> r.error == if event.multiplier.Finite? then NegativeLength(token) else NonFiniteDuration(token)
  {
    if !event.multiplier.Finite? then Err(NonFiniteDuration(token))
    else if SampleCount(beat * event.multiplier.value) < 0 then Err(NegativeLength(token))
    else Ok(beat * event.multiplier.value)
  }

  /** The two buffers of a token that renders: its note and the spacer. */
  function NoteAndGap(shape: Shape, kind: WaveKind, freq: real, seconds: real): seq<seq<real>>
    requires SampleCount(seconds) >= 0
  {
    [NoteOf(shape, kind, freq, seconds), Zeros(GapLength())]
  }

  /** The note buffer of a token: the shaped wave when the frequency is
      positive, silence of the same length otherwise. */
  function NoteOf(shape: Shape, kind: WaveKind, freq: real, seconds: real): (note: seq<real>)
    requires SampleCount(seconds) >= 0
    ensures |note| == SampleCount(seconds)
    ensures freq <= 0.0 ==> forall k :: 0 <= k < |note| ==> note[k] == 0.0
  {
    if freq > 0.0 then ApplyEnvelope(GenerateWave(shape, kind, freq, seconds))
    else Zeros(SampleCount(seconds))
  }

  /** A parsed token whose length is not a finite number fails. */
  lemma TokenChunksNonFinite(beat: real, kind: WaveKind, shape: Shape, token: string, event: NoteEvent)
    requires ParseToken(token) == Ok(event) && !event.multiplier.Finite?
    ensures TokenChunks(beat, kind, shape, token) == Err(NonFiniteDuration(token))
  {
    assert NoteSeconds(beat, token, event) == Err(NonFiniteDuration(token));
  }

  /** A parsed token whose sample count is negative fails. */
  lemma TokenChunksNegative(beat: real, kind: WaveKind, shape: Shape, token: string, event: NoteEvent)
    requires ParseToken(token) == Ok(event) && event.multiplier.Finite?
    requires SampleCount(beat * event.multiplier.value) < 0
    ensures TokenChunks(beat, kind, shape, token) == Err(NegativeLength(token))
  {
    assert NoteSeconds(beat, token, event) == Err(NegativeLength(token));
  }

  /** A rendered token is two buffers whose lengths are the note's sample
      count and the spacer, whether the note sounds or rests; a rest is
      silent. */
  lemma TokenChunksShape(beat: real, kind: WaveKind, shape: Shape, token: string)
    requires TokenChunks(beat, kind, shape, token).Ok?
    ensures ParseToken(token).Ok? && ParseToken(token).value.multiplier.Finite?
    ensures var c := TokenChunks(beat, kind, shape, token).value;
      var event := ParseToken(token).value;
      && |c| == 2
      && |c[0]| == SampleCount(beat * event.multiplier.value)
      && |c[1]| == GapLength()
      && (event.freq == 0.0 ==> forall k :: 0 <= k < |c[0]| ==> c[0][k] == 0.0)
  {
    var event := ParseToken(token).value;
    var seconds := NoteSeconds(beat, token, event).value;
    assert TokenChunks(beat, kind, shape, token).value == NoteAndGap(shape, kind, event.freq, seconds);
  }

  /** The list `audio_data` after the tokens, or the first token's error. */
  function Render(beat: real, kind: WaveKind, shape: Shape, tokens: seq<string>): Result<seq<seq<real>>, SynthError>
  {
    if tokens == [] then Ok([])
    else
      match Render(beat, kind, shape, tokens[..|tokens| - 1])
      case Err(e) => Err(e)
      case Ok(chunks) =>
        match TokenChunks(beat, kind, shape, tokens[|tokens| - 1])
        case Err(e) => Err(e)
        case Ok(more) => Ok(chunks + more)
  }

  /** `np.concatenate`. */
  function Concat(chunks: seq<seq<real>>): seq<real> {
    if chunks == [] then [] else Concat(chunks[..|chunks| - 1]) + chunks[|chunks| - 1]
  }

  /** `np.max(np.abs(x))` (0 for the empty buffer). */
  function MaxAbs(x: seq<real>): (m: real)
    ensures m >= 0.0
  {
    if x == [] then 0.0
    else if Abs(x[|x| - 1]) > MaxAbs(x[..|x| - 1]) then Abs(x[|x| - 1])
    else MaxAbs(x[..|x| - 1])
  }

  lemma {:induction false} MaxAbsIsMax(x: seq<real>)
    ensures forall i :: 0 <= i < |x| ==> Abs(x[i]) <= MaxAbs(x)
    ensures x != [] ==> exists i :: 0 <= i < |x| && Abs(x[i]) == MaxAbs(x)
  {
    if x != [] {
      var init := x[..|x| - 1];
      MaxAbsIsMax(init);
      assert forall i :: 0 <= i < |init| ==> init[i] == x[i];
      if init != [] && Abs(x[|x| - 1]) <= MaxAbs(init) {
        var i :| 0 <= i < |init| && Abs(init[i]) == MaxAbs(init);
        assert Abs(x[i]) == MaxAbs(x);
      } else {
        assert Abs(x[|x| - 1]) == MaxAbs(x);
      }
    }
  }

  function Scale(x: seq<real>, factor: real): (y: seq<real>)
    ensures |y| == |x|
  {
    seq(|x|, i requires 0 <= i < |x| => x[i] * factor)
  }

  /** Scales the peak to 32767; an all-zero buffer is left as it is. */
  function Normalize(x: seq<real>): (y: seq<real>)
    ensures |y| == |x|
  {
    if MaxAbs(x) > 0.0 then Scale(x, 32767.0 / MaxAbs(x)) else x
  }

  /** Every sample lies within +-32767. */
  predicate InRange(x: seq<real>) {
    forall i :: 0 <= i < |x| ==> Abs(x[i]) <= 32767.0
  }

  /** `astype(np.int16)`: truncates each sample toward zero. The source only
      converts normalised buffers; a float outside the 16-bit range has no
      defined conversion. */
  function Quantize(x: seq<real>): (q: seq<int>)
    requires InRange(x)
    ensures |q| == |x|
    ensures forall i :: 0 <= i < |x| ==> -32767 <= q[i] <= 32767
    ensures forall i :: 0 <= i < |x| ==> (q[i] == 0 <==> Abs(x[i]) < 1.0)
  {
    seq(|x|, i requires 0 <= i < |x| => Trunc(x[i]))
  }

  /** The buffer `generate_audio` returns for a melody string: an error when
      Python raises, `None` when there are no tokens, else the samples. */
  function AudioOf(noteSequence: string, bpm: int, waveType: string, shape: Shape): Result<Option<seq<int>>, SynthError>
  {
    if bpm == 0 then Err(ZeroTempo)
    else
      match Render(60.0 / bpm as real, WaveKindOf(waveType), shape, Split(noteSequence))
      case Err(e) => Err(e)
      case Ok(chunks) => MixDown(chunks)
  }

  /** What `generate_audio` makes of the rendered buffers: `None` when there
      are none, an error when they hold no sample, else the joined buffer
      scaled to full range and converted to 16-bit samples. */
  function MixDown(chunks: seq<seq<real>>): Result<Option<seq<int>>, SynthError>
  {
    if chunks == [] then Ok(None)
    // `np.max` raises on a zero-length buffer; `AudioNeverEmptySignal`
    // shows that `generate_audio` never reaches this case.
    else if Concat(chunks) == [] then Err(EmptySignal)
    else
      NormalizeInRange(Concat(chunks));
      Ok(Some(Quantize(Normalize(Concat(chunks)))))
  }

  // ---------------------------------------------------------------------
  // Properties of the assembled audio
  // ---------------------------------------------------------------------

  lemma {:induction false} RenderChunkCount(beat: real, kind: WaveKind, shape: Shape, tokens: seq<string>)
    requires Render(beat, kind, shape, tokens).Ok?
    ensures |Render(beat, kind, shape, tokens).value| == 2 * |tokens|
  {
    if tokens != [] {
      RenderChunkCount(beat, kind, shape, tokens[..|tokens| - 1]);
    }
  }

  /** `generate_audio` returns `None` exactly when the melody has no tokens
      (it is empty or all whitespace), provided the tempo is not 0. */
  lemma NoneIffBlank(noteSequence: string, bpm: int, waveType: string, shape: Shape)
    requires bpm != 0
    ensures AudioOf(noteSequence, bpm, waveType, shape) == Ok(None) <==> IsBlank(noteSequence)
  {
    SplitEmptyIffBlank(noteSequence);
    var r := Render(60.0 / bpm as real, WaveKindOf(waveType), shape, Split(noteSequence));
    if r.Ok? {
      RenderChunkCount(60.0 / bpm as real, WaveKindOf(waveType), shape, Split(noteSequence));
    }
  }

  /** The samples one token contributes: its note length plus the spacer,
      whether it sounds or rests and whatever the waveform. */
  function TokenLength(beat: real, token: string): int {
    match ParseToken(token)
    case Ok(event) =>
      if event.multiplier.Finite?
      then SampleCount(beat * event.multiplier.value) + GapLength()
      else 0
    case Err(_) => 0
  }

  function TotalLength(beat: real, tokens: seq<string>): int {
    if tokens == [] then 0
    else TotalLength(beat, tokens[..|tokens| - 1]) + TokenLength(beat, tokens[|tokens| - 1])
  }

  lemma {:induction false} ConcatAppend(chunks: seq<seq<real>>, more: seq<seq<real>>)
    ensures Concat(chunks + more) == Concat(chunks) + Concat(more)
    decreases |more|
  {
    if more != [] {
      var n := |more| - 1;
      assert chunks + more == (chunks + more[..n]) + [more[n]];
      assert (chunks + more)[..|chunks + more| - 1] == chunks + more[..n];
      ConcatAppend(chunks, more[..n]);
      assert more[..n] + [more[n]] == more;
    } else {
      assert chunks + more == chunks;
    }
  }

  lemma TokenChunksLength(beat: real, kind: WaveKind, shape: Shape, token: string)
    requires TokenChunks(beat, kind, shape, token).Ok?
    ensures |Concat(TokenChunks(beat, kind, shape, token).value)| == TokenLength(beat, token)
  {
    TokenChunksShape(beat, kind, shape, token);
    ConcatPair(TokenChunks(beat, kind, shape, token).value);
  }

  lemma ConcatPair(c: seq<seq<real>>)
    requires |c| == 2
    ensures Concat(c) == c[0] + c[1]
  {
    var first := c[..1];
    assert c[..|c| - 1] == first;
    assert first[..|first| - 1] == [];
    assert Concat(first) == Concat([]) + c[0];
  }

  /** The assembled buffer holds, per token, `int(sample_rate * beat *
      duration)` samples plus the spacer. */
  lemma {:induction false} RenderLength(beat: real, kind: WaveKind, shape: Shape, tokens: seq<string>)
    requires Render(beat, kind, shape, tokens).Ok?
    ensures |Concat(Render(beat, kind, shape, tokens).value)| == TotalLength(beat, tokens)
  {
    if tokens != [] {
      var init := tokens[..|tokens| - 1];
      var last := tokens[|tokens| - 1];
      RenderLength(beat, kind, shape, init);
      TokenChunksLength(beat, kind, shape, last);
      ConcatAppend(Render(beat, kind, shape, init).value,
                   TokenChunks(beat, kind, shape, last).value);
    }
  }

  /** The returned buffer has the length the tokens add up to. */
  lemma AudioLength(noteSequence: string, bpm: int, waveType: string, shape: Shape)
    requires AudioOf(noteSequence, bpm, waveType, shape).Ok?
    requires AudioOf(noteSequence, bpm, waveType, shape).value.Some?
    ensures |AudioOf(noteSequence, bpm, waveType, shape).value.value|
         == TotalLength(60.0 / bpm as real, Split(noteSequence))
  {
    RenderLength(60.0 / bpm as real, WaveKindOf(waveType), shape, Split(noteSequence));
  }

  /** A sample scaled by a positive gain that maps the peak to 32767. */
  lemma ScaledBound(v: real, peak: real, f: real, y: real)
    requires peak > 0.0 && f > 0.0 && peak * f == 32767.0
    requires Abs(v) <= peak && y == v * f
    ensures Abs(y) <= 32767.0
    ensures Abs(v) == peak ==> Abs(y) == 32767.0
  {
    if v >= 0.0 {
      assert v * f <= peak * f;
    } else {
      var w := -v;
      assert y == -(w * f);
      assert 0.0 <= w * f <= peak * f;
      assert Abs(y) == w * f;
      assert Abs(y) <= 32767.0;
      if Abs(v) == peak {
        assert w == peak;
        assert w * f == 32767.0;
      }
    }
  }

  /** The gain `32767 / peak` of a positive peak. */
  lemma Gain(peak: real)
    requires peak > 0.0
    ensures 32767.0 / peak > 0.0
    ensures peak * (32767.0 / peak) == 32767.0
  {
  }

  lemma ScaleAt(x: seq<real>, f: real, i: nat)
    requires i < |x|
    ensures Scale(x, f)[i] == x[i] * f
  {
  }

  /** Normalisation brings every sample within +-32767, the loudest ones
      to exactly +-32767, and leaves an all-zero buffer as it is. */
  lemma NormalizeInRange(x: seq<real>)
    ensures InRange(Normalize(x))
    ensures forall i :: 0 <= i < |x| && Abs(x[i]) == MaxAbs(x) > 0.0 ==> Abs(Normalize(x)[i]) == 32767.0
    ensures MaxAbs(x) == 0.0 ==> Normalize(x) == x
  {
    forall i | 0 <= i < |x|
      ensures Abs(Normalize(x)[i]) <= 32767.0
      ensures Abs(x[i]) == MaxAbs(x) > 0.0 ==> Abs(Normalize(x)[i]) == 32767.0
    {
      SampleBound(x, i);
    }
  }

  /** One sample of the normalised buffer. */
  lemma SampleBound(x: seq<real>, i: nat)
    requires i < |x|
    ensures Abs(Normalize(x)[i]) <= 32767.0
    ensures Abs(x[i]) == MaxAbs(x) > 0.0 ==> Abs(Normalize(x)[i]) == 32767.0
  {
    var peak := MaxAbs(x);
    assert Abs(x[i]) <= peak by {
      MaxAbsIsMax(x);
    }
    if peak > 0.0 {
      var f := 32767.0 / peak;
      Gain(peak);
      assert Normalize(x) == Scale(x, f);
      ScaleAt(x, f, i);
      ScaledBound(x[i], peak, f, Normalize(x)[i]);
    } else {
      assert Normalize(x) == x;
    }
  }

  /** Normalisation and quantisation: a buffer with any non-zero sample
      reaches exactly +-32767; an all-zero buffer stays all zero. */
  lemma NormalizeQuantizeBounds(x: seq<real>)
    requires x != []
    ensures (exists i :: 0 <= i < |x| && x[i] != 0.0) ==>
      exists i :: 0 <= i < |x| && Abs(Trunc(Normalize(x)[i]) as real) == 32767.0
    ensures (forall i :: 0 <= i < |x| ==> x[i] == 0.0) ==>
      forall i :: 0 <= i < |x| ==> Trunc(Normalize(x)[i]) == 0
  {
    NormalizeInRange(x);
    MaxAbsIsMax(x);
    if exists i :: 0 <= i < |x| && x[i] != 0.0 {
      var k :| 0 <= k < |x| && Abs(x[k]) == MaxAbs(x);
      assert Abs(Normalize(x)[k]) == 32767.0;
    }
  }

  /** The mixed-down samples are within +-32767, and reach the peak value
      exactly when anything sounds. */
  lemma MixDownBounded(chunks: seq<seq<real>>)
    requires MixDown(chunks).Ok? && MixDown(chunks).value.Some?
    ensures var q := MixDown(chunks).value.value;
      && (forall i :: 0 <= i < |q| ==> -32767 <= q[i] <= 32767)
      && ((exists i :: 0 <= i < |q| && q[i] != 0) ==>
            exists i :: 0 <= i < |q| && (q[i] == 32767 || q[i] == -32767))
  {
    var x := Concat(chunks);
    NormalizeInRange(x);
    var q := Quantize(Normalize(x));
    assert MixDown(chunks).value.value == q;
    if exists i :: 0 <= i < |q| && q[i] != 0 {
      var i :| 0 <= i < |q| && q[i] != 0;
      assert Trunc(Normalize(x)[i]) != 0;
      NormalizeQuantizeBounds(x);
      assert exists j :: 0 <= j < |x| && x[j] != 0.0;
      var k :| 0 <= k < |x| && Abs(Trunc(Normalize(x)[k]) as real) == 32767.0;
      assert q[k] == Trunc(Normalize(x)[k]);
    }
  }

  /** The samples `generate_audio` returns are within +-32767, and reach the
      peak value exactly when anything sounds. */
  lemma AudioBounded(noteSequence: string, bpm: int, waveType: string, shape: Shape)
    requires AudioOf(noteSequence, bpm, waveType, shape).Ok?
    requires AudioOf(noteSequence, bpm, waveType, shape).value.Some?
    ensures var q := AudioOf(noteSequence, bpm, waveType, shape).value.value;
      && (forall i :: 0 <= i < |q| ==> -32767 <= q[i] <= 32767)
      && ((exists i :: 0 <= i < |q| && q[i] != 0) ==>
            exists i :: 0 <= i < |q| && (q[i] == 32767 || q[i] == -32767))
  {
    var chunks := Render(60.0 / bpm as real, WaveKindOf(waveType), shape, Split(noteSequence)).value;
    assert AudioOf(noteSequence, bpm, waveType, shape) == MixDown(chunks);
    MixDownBounded(chunks);
  }

  lemma RenderFailsAt(beat: real, kind: WaveKind, shape: Shape, tokens: seq<string>, i: nat, e: SynthError)
    requires i < |tokens|
    requires Render(beat, kind, shape, tokens[..i]).Ok?
    requires TokenChunks(beat, kind, shape, tokens[i]) == Err(e)
    ensures Render(beat, kind, shape, tokens) == Err(e)
  {
    assert tokens[..i + 1][..i] == tokens[..i];
    RenderKeepsError(beat, kind, shape, tokens, i + 1, e);
  }

  lemma {:induction false} RenderKeepsError(beat: real, kind: WaveKind, shape: Shape, tokens: seq<string>, i: nat, e: SynthError)
    requires i <= |tokens|
    requires Render(beat, kind, shape, tokens[..i]) == Err(e)
    ensures Render(beat, kind, shape, tokens) == Err(e)
    decreases |tokens| - i
  {
    if i < |tokens| {
      assert tokens[..i + 1][..i] == tokens[..i];
      RenderKeepsError(beat, kind, shape, tokens, i + 1, e);
    } else {
      assert tokens[..i] == tokens;
    }
  }

  /** A rendered melody with a token ends with that token's spacer. */
  lemma RenderEndsWithGap(beat: real, kind: WaveKind, shape: Shape, tokens: seq<string>)
    requires tokens != [] && Render(beat, kind, shape, tokens).Ok?
    ensures var c := Render(beat, kind, shape, tokens).value;
      c != [] && |c[|c| - 1]| == GapLength()
  {
    var last := tokens[|tokens| - 1];
    TokenChunksShape(beat, kind, shape, last);
  }

  /** Rendering fails only with a token's own error, never `EmptySignal`. */
  lemma {:induction false} RenderNotEmptySignal(beat: real, kind: WaveKind, shape: Shape, tokens: seq<string>)
    ensures Render(beat, kind, shape, tokens) != Err(EmptySignal)
  {
    if tokens != [] {
      RenderNotEmptySignal(beat, kind, shape, tokens[..|tokens| - 1]);
      var token := tokens[|tokens| - 1];
      if ParseToken(token).Ok? {
        var event := ParseToken(token).value;
        assert NoteSeconds(beat, token, event) != Err(EmptySignal);
      }
    }
  }

  /** Every token contributes the spacer, so `generate_audio` never calls
      `np.max` on a zero-length buffer. */
  lemma AudioNeverEmptySignal(noteSequence: string, bpm: int, waveType: string, shape: Shape)
    ensures AudioOf(noteSequence, bpm, waveType, shape) != Err(EmptySignal)
  {
    if bpm != 0 {
      var beat, kind, tokens := 60.0 / bpm as real, WaveKindOf(waveType), Split(noteSequence);
      RenderNotEmptySignal(beat, kind, shape, tokens);
      if tokens != [] && Render(beat, kind, shape, tokens).Ok? {
        RenderEndsWithGap(beat, kind, shape, tokens);
        var c := Render(beat, kind, shape, tokens).value;
        assert |Concat(c)| >= |c[|c| - 1]|;
      }
    }
  }

  lemma RenderStep(beat: real, kind: WaveKind, shape: Shape, tokens: seq<string>, i: nat, chunks: seq<seq<real>>, more: seq<seq<real>>)
    requires i < |tokens|
    requires Render(beat, kind, shape, tokens[..i]) == Ok(chunks)
    requires TokenChunks(beat, kind, shape, tokens[i]) == Ok(more)
    ensures Render(beat, kind, shape, tokens[..i + 1]) == Ok(chunks + more)
  {
    assert tokens[..i + 1][..i] == tokens[..i];
  }

  // ---------------------------------------------------------------------
  // The synthesizer object
  // ---------------------------------------------------------------------

  /** `np.max(np.abs(signal))` over a non-empty buffer. */
  method Peak(signal: array<real>) returns (peak: real)
    requires signal.Length > 0
    ensures peak == MaxAbs(signal[..])
  {
    peak := 0.0;
    var i := 0;
    while i < signal.Length
      invariant 0 <= i <= signal.Length
      invariant peak == MaxAbs(signal[..i])
    {
      assert signal[..i + 1][..i] == signal[..i];
      if Abs(signal[i]) > peak {
        peak := Abs(signal[i]);
      }
      i := i + 1;
    }
    assert signal[..i] == signal[..];
  }

  /** The in-place `combined_signal *= 32767 / peak`, skipped when the
      buffer is all zeros. */
  method ScaleToPeak(signal: array<real>)
    requires signal.Length > 0
    modifies signal
    ensures signal[..] == Normalize(old(signal[..]))
  {
    ghost var original := signal[..];
    var peak := Peak(signal);
    if peak > 0.0 {
      ScaleBy(signal, 32767.0 / peak);
    }
  }

  /** The in-place `signal *= factor`. */
  method ScaleBy(signal: array<real>, factor: real)
    modifies signal
    ensures signal[..] == Scale(old(signal[..]), factor)
  {
    ghost var original := signal[..];
    var j := 0;
    while j < signal.Length
      invariant 0 <= j <= signal.Length
      invariant forall k :: 0 <= k < j ==> signal[k] == original[k] * factor
      invariant forall k :: j <= k < signal.Length ==> signal[k] == original[k]
    {
      signal[j] := signal[j] * factor;
      j := j + 1;
    }
    assert forall k :: 0 <= k < signal.Length ==> Scale(original, factor)[k] == original[k] * factor;
  }

  /** The end of `generate_audio`: joins the buffers, scales the joined
      buffer in place so its peak is 32767 and converts it to 16-bit
      samples. */
  method Mix(audioData: seq<seq<real>>) returns (r: Result<Option<seq<int>>, SynthError>)
    ensures r == MixDown(audioData)
  {
    if audioData == [] {
      return Ok(None);
    }
    var signal := Concat(audioData);
    var combined := new real[|signal|](j requires 0 <= j < |signal| => signal[j]);
    assert combined[..] == signal;
    if combined.Length == 0 {
      return Err(EmptySignal);
    }
    ScaleToPeak(combined);
    NormalizeInRange(signal);
    r := Ok(Some(Quantize(combined[..])));
  }

  /** `generate_audio`: renders every token into `audio_data`, joins the
      buffers, scales the joined buffer in place so its peak is 32767, and
      converts it to 16-bit samples. */
  method GenerateAudio(noteSequence: string, bpm: int, waveType: string, shape: Shape)
    returns (r: Result<Option<seq<int>>, SynthError>)
    ensures r == AudioOf(noteSequence, bpm, waveType, shape)
  {
    var notes := Split(noteSequence);
    if bpm == 0 {
      return Err(ZeroTempo);
    }
    var rendered := RenderAll(60.0 / bpm as real, WaveKindOf(waveType), shape, notes);
    if rendered.Err? {
      return Err(rendered.error);
    }
    r := Mix(rendered.value);
  }

  /** The loop of `generate_audio` that appends each token's buffers to
      `audio_data`, stopping at the first token Python raises on. */
  method RenderAll(beat: real, kind: WaveKind, shape: Shape, notes: seq<string>)
    returns (r: Result<seq<seq<real>>, SynthError>)
    ensures r == Render(beat, kind, shape, notes)
  {
    var audioData: seq<seq<real>> := [];
    var i := 0;
    while i < |notes|
      invariant 0 <= i <= |notes|
      invariant Render(beat, kind, shape, notes[..i]) == Ok(audioData)
    {
      var chunks := TokenChunks(beat, kind, shape, notes[i]);
      if chunks.Err? {
        RenderFailsAt(beat, kind, shape, notes, i, chunks.error);
        return Err(chunks.error);
      }
      RenderStep(beat, kind, shape, notes, i, audioData, chunks.value);
      audioData := audioData + chunks.value;
      i := i + 1;
    }
    assert notes[..i] == notes;
    r := Ok(audioData);
  }
}
