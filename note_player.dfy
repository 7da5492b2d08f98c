/** Musical note sequencing (src/common/reachy/note_player.py): the note
    table, the unknown-note fallback and envelope sizing of `generate_note`,
    and the timing loop of `generate_sequence`. Waveforms are not modelled;
    a generated note is represented by its number of samples. */
module NotePlayer {
  import opened Util

  /** NOTE_FREQUENCIES, in Hz. */
  const NoteFrequencies: map<string, real> := map[
    "C4" := 261.63, "D4" := 293.66, "E4" := 329.63, "F4" := 349.23, "G4" := 392.00,
    "A4" := 440.00, "B4" := 493.88, "C5" := 523.25, "D5" := 587.33, "E5" := 659.25]

  /** The frequency `generate_note` plays for a note name: an unknown name
      is replaced by C4 before the lookup, so every name has a frequency and
      it lies between C4 and E5. */
  function NoteFrequency(name: string): (f: real)
    ensures name !in NoteFrequencies ==> f == NoteFrequencies["C4"]
    ensures name in NoteFrequencies ==> f == NoteFrequencies[name]
    ensures 261.63 <= f <= 659.25
  {
    var resolved := if name in NoteFrequencies then name else "C4";
    NoteFrequencies[resolved]
  }

  /** `int(sample_rate * duration)`: the length of a generated note. */
  function NoteSamples(sampleRate: nat, duration: real): int
  {
    Trunc(sampleRate as real * duration)
  }

  /** The silence appended after each note when the gap is positive. */
  function GapSamples(sampleRate: nat, gap: real): (n: nat)
    ensures gap <= 0.0 ==> n == 0
  {
    if gap > 0.0 then Trunc(sampleRate as real * gap) else 0
  }

  // ---------------------------------------------------------------------
  // ADSR envelope

  datatype Envelope = Envelope(attack: int, decay: int, sustain: int, release: int)

  /** The segment lengths of the ADSR envelope for a note of `n` samples:
      attack and decay take a tenth each, sustain six tenths (all rounded
      down), and release takes the rest, which is never negative. So the
      concatenated envelope is exactly `n` long and the interpolation
      fallback in the source is never used. */
  function EnvelopeSizes(n: nat): (e: Envelope)
    ensures e.attack == n / 10 && e.decay == n / 10 && e.sustain == (6 * n) / 10
    ensures e.release >= 0 && e.release >= n / 5
    ensures e.attack + e.decay + e.sustain + e.release == n
  {
    TenthFloor(n, 1);
    TenthFloor(n, 6);
    var attack := Trunc(n as real * 0.1);
    var decay := Trunc(n as real * 0.1);
    var sustain := Trunc(n as real * 0.6);
    Envelope(attack, decay, sustain, n - attack - decay - sustain)
  }

  /** `int(n * (k/10))` is the integer quotient `(k * n) / 10`. */
  lemma TenthFloor(n: nat, k: nat)
    requires k == 1 || k == 6
    ensures Trunc(n as real * (k as real / 10.0)) == (k * n) / 10
  {
    var q := (k * n) / 10;
    var x := n as real * (k as real / 10.0);
    assert x == (k * n) as real / 10.0;
    assert 10 * q <= k * n < 10 * q + 10;
    assert q as real <= x < q as real + 1.0;
  }

  // ---------------------------------------------------------------------
  // generate_sequence

  /** (note_name, start_time, end_time). */
  datatype Timing = Timing(name: string, start: real, end: real)

  /** NoteResult without the audio samples themselves. */
  datatype NoteResult = NoteResult(sampleRate: nat, samples: nat, duration: real, timings: seq<Timing>)

  /** The notes with their lengths converted from beats to seconds
      (`duration = beats * beat_duration`). */
  function InSeconds(notes: seq<(string, real)>, beat: real): (r: seq<(string, real)>)
    ensures |r| == |notes|
  {
    seq(|notes|, k requires 0 <= k < |notes| => (notes[k].0, notes[k].1 * beat))
  }

  /** Where the note after `notes` (lengths in seconds) starts: each note is
      followed by the gap. */
  function StartAfter(notes: seq<(string, real)>, gap: real): real
  {
    if |notes| == 0 then 0.0
    else StartAfter(notes[..|notes| - 1], gap) + notes[|notes| - 1].1 + gap
  }

  /** The note timings `generate_sequence` records for notes whose lengths
      are in seconds. */
  function Schedule(notes: seq<(string, real)>, gap: real): (ts: seq<Timing>)
    ensures |ts| == |notes|
  {
    if |notes| == 0 then []
    else
      var prefix := notes[..|notes| - 1];
      var last := notes[|notes| - 1];
      var start := StartAfter(prefix, gap);
      Schedule(prefix, gap) + [Timing(last.0, start, start + last.1)]
  }

  /** Total samples of the concatenated audio: each note's samples plus,
      when the gap is positive, a gap's worth of silence. */
  function TotalSamples(notes: seq<(string, real)>, gap: real, sampleRate: nat): int
  {
    if |notes| == 0 then 0
    else
      TotalSamples(notes[..|notes| - 1], gap, sampleRate)
      + NoteSamples(sampleRate, notes[|notes| - 1].1) + GapSamples(sampleRate, gap)
  }

  /** Every note is at least one sample long; a note of zero samples makes
      `np.max` of an empty array raise, a negative length makes `np.linspace`
      raise. Stated note by note from the end, like the schedule;
      AudibleEach gives the quantified form. */
  predicate AllNotesAudible(notes: seq<(string, real)>, sampleRate: nat)
  {
    |notes| == 0
    || (AllNotesAudible(notes[..|notes| - 1], sampleRate)
        && NoteSamples(sampleRate, notes[|notes| - 1].1) >= 1)
  }

  /** Appending one note extends the schedule and the next start by that
      note. */
  lemma ScheduleStep(notes: seq<(string, real)>, gap: real, i: nat)
    requires i < |notes|
    ensures var start := StartAfter(notes[..i], gap);
      && Schedule(notes[..i + 1], gap)
         == Schedule(notes[..i], gap) + [Timing(notes[i].0, start, start + notes[i].1)]
      && StartAfter(notes[..i + 1], gap) == start + notes[i].1 + gap
  {
    var p := notes[..i + 1];
    assert p[..|p| - 1] == notes[..i];
    assert p[|p| - 1] == notes[i];
  }

  /** Appending one note extends the schedule, the next start, the sample
      count and the audibility test by that note. */
  lemma Step(notes: seq<(string, real)>, gap: real, sampleRate: nat, i: nat)
    requires i < |notes|
    ensures var start := StartAfter(notes[..i], gap);
      && Schedule(notes[..i + 1], gap)
         == Schedule(notes[..i], gap) + [Timing(notes[i].0, start, start + notes[i].1)]
      && StartAfter(notes[..i + 1], gap) == start + notes[i].1 + gap
    ensures TotalSamples(notes[..i + 1], gap, sampleRate)
         == TotalSamples(notes[..i], gap, sampleRate)
            + NoteSamples(sampleRate, notes[i].1) + GapSamples(sampleRate, gap)
    ensures AllNotesAudible(notes[..i + 1], sampleRate)
        <==> AllNotesAudible(notes[..i], sampleRate) && NoteSamples(sampleRate, notes[i].1) >= 1
  {
    var p := notes[..i + 1];
    assert p[..|p| - 1] == notes[..i];
    assert p[|p| - 1] == notes[i];
  }

  /** A prefix of audible notes is audible. */
  lemma {:induction false} AudiblePrefix(notes: seq<(string, real)>, sampleRate: nat, j: nat)
    requires j <= |notes|
    ensures AllNotesAudible(notes, sampleRate) ==> AllNotesAudible(notes[..j], sampleRate)
    decreases |notes|
  {
    if j < |notes| {
      var prefix := notes[..|notes| - 1];
      AudiblePrefix(prefix, sampleRate, j);
      assert prefix[..j] == notes[..j];
    } else {
      assert notes[..j] == notes;
    }
  }

  /** The notes are all audible exactly when each one is. */
  lemma {:induction false} AudibleEach(notes: seq<(string, real)>, sampleRate: nat)
    ensures AllNotesAudible(notes, sampleRate)
        <==> forall i :: 0 <= i < |notes| ==> NoteSamples(sampleRate, notes[i].1) >= 1
    decreases |notes|
  {
    if |notes| > 0 {
      var prefix := notes[..|notes| - 1];
      AudibleEach(prefix, sampleRate);
      assert forall i :: 0 <= i < |prefix| ==> prefix[i] == notes[i];
    }
  }

  /** At a sample rate of zero every note is empty. */
  lemma SilentAtZeroRate(duration: real)
    ensures NoteSamples(0, duration) == 0
  {
  }

  /** `generate_sequence`. It fails when the tempo is zero (the beat length
      divides by it), when a note is shorter than one sample, and when the
      list is empty (`np.concatenate` of no arrays). Otherwise the timings
      are the schedule and the duration is the sample count over the rate. */
  method GenerateSequence(notes: seq<(string, real)>, tempo: real, gap: real, sampleRate: nat)
    returns (r: Result<NoteResult>)
    ensures r.Ok? <==>
      tempo != 0.0 && |notes| > 0 && AllNotesAudible(InSeconds(notes, 60.0 / tempo), sampleRate)
    ensures r.Ok? ==>
      && sampleRate > 0
      && r.value.sampleRate == sampleRate
      && r.value.timings == Schedule(InSeconds(notes, 60.0 / tempo), gap)
      && r.value.samples == TotalSamples(InSeconds(notes, 60.0 / tempo), gap, sampleRate)
      && r.value.duration == r.value.samples as real / sampleRate as real
  {
    if tempo == 0.0 {
      return Err("float division by zero");
    }
    r := SequenceOfDurations(InSeconds(notes, 60.0 / tempo), gap, sampleRate);
  }

  /** The loop of `generate_sequence`, over the note lengths in seconds. */
  method SequenceOfDurations(notes: seq<(string, real)>, gap: real, sampleRate: nat)
    returns (r: Result<NoteResult>)
    ensures r.Ok? <==> |notes| > 0 && AllNotesAudible(notes, sampleRate)
    ensures r.Ok? ==>
      && sampleRate > 0
      && r.value.sampleRate == sampleRate
      && r.value.timings == Schedule(notes, gap)
      && r.value.samples == TotalSamples(notes, gap, sampleRate)
      && r.value.duration == r.value.samples as real / sampleRate as real
  {
    var timings: seq<Timing> := [];
    var samples: int := 0;
    var current := 0.0;
    var i := 0;
    while i < |notes|
      invariant 0 <= i <= |notes|
      invariant timings == Schedule(notes[..i], gap)
      invariant current == StartAfter(notes[..i], gap)
      invariant samples == TotalSamples(notes[..i], gap, sampleRate)
      invariant AllNotesAudible(notes[..i], sampleRate)
      invariant samples >= i
      invariant i > 0 ==> sampleRate > 0
    {
      Step(notes, gap, sampleRate, i);
      var (name, noteDuration) := notes[i];
      var start := current;
      var n := NoteSamples(sampleRate, noteDuration);
      if n < 1 {
        AudiblePrefix(notes, sampleRate, i + 1);
        return Err("cannot generate a note of " + (if n == 0 then "zero" else "negative") + " length");
      }
      if sampleRate == 0 {
        SilentAtZeroRate(noteDuration);
        assert false;
      }
      samples := samples + n;
      if gap > 0.0 {
        samples := samples + GapSamples(sampleRate, gap);
      }
      var end := current + noteDuration;
      timings := timings + [Timing(name, start, end)];
      current := end + gap;
      i := i + 1;
    }
    assert notes[..|notes|] == notes;
    if |notes| == 0 {
      return Err("need at least one array to concatenate");
    }
    r := Ok(NoteResult(sampleRate, samples, samples as real / sampleRate as real, timings));
  }

  // ---------------------------------------------------------------------
  // Properties of the schedule

  /** One timing per note, in input order and with the same name; the first
      note starts at 0, each lasts its length, and the next one starts a gap
      after the previous one ends. */
  lemma ScheduleShape(notes: seq<(string, real)>, gap: real)
    ensures var ts := Schedule(notes, gap);
      && (|notes| > 0 ==> ts[0].start == 0.0)
      && (forall i :: 0 <= i < |ts| ==> ts[i].name == notes[i].0)
      && (forall i :: 0 <= i < |ts| ==> ts[i].end - ts[i].start == notes[i].1)
      && (forall i :: 0 < i < |ts| ==> ts[i].start == ts[i - 1].end + gap)
  {
    var ts := Schedule(notes, gap);
    forall i | 0 <= i < |ts|
      ensures ts[i] == Timing(notes[i].0, StartAfter(notes[..i], gap),
                              StartAfter(notes[..i], gap) + notes[i].1)
    {
      ScheduleAt(notes, gap, i);
    }
    forall i | 0 < i < |ts| ensures ts[i].start == ts[i - 1].end + gap {
      Step(notes, gap, 0, i - 1);
    }
  }

  /** Entry `i` of the schedule starts where the first `i` notes leave off. */
  lemma {:induction false} ScheduleAt(notes: seq<(string, real)>, gap: real, i: nat)
    requires i < |notes|
    ensures Schedule(notes, gap)[i]
         == Timing(notes[i].0, StartAfter(notes[..i], gap), StartAfter(notes[..i], gap) + notes[i].1)
    decreases |notes|
  {
    var n := |notes|;
    var prefix := notes[..n - 1];
    if i < n - 1 {
      ScheduleAt(prefix, gap, i);
      assert prefix[..i] == notes[..i];
      assert Schedule(notes, gap)[i] == Schedule(prefix, gap)[i];
    } else {
      assert notes[..i] == prefix;
    }
  }

  /** The next start is a gap after the end of the last note. */
  lemma ScheduleEnd(notes: seq<(string, real)>, gap: real)
    requires |notes| > 0
    ensures Schedule(notes, gap)[|notes| - 1].end + gap == StartAfter(notes, gap)
  {
    ScheduleAt(notes, gap, |notes| - 1);
    assert notes[..|notes| - 1] == notes[..|notes| - 1];
  }

  /** With positive note lengths and a non-negative gap, the starts
      strictly increase and no two notes overlap. */
  lemma ScheduleOrdered(notes: seq<(string, real)>, gap: real)
    requires gap >= 0.0
    requires forall i :: 0 <= i < |notes| ==> notes[i].1 > 0.0
    ensures var ts := Schedule(notes, gap);
      forall i, j :: 0 <= i < j < |ts| ==> ts[i].start < ts[j].start && ts[i].end <= ts[j].start
  {
    ScheduleShape(notes, gap);
    var ts := Schedule(notes, gap);
    forall i, j | 0 <= i < j < |ts| ensures ts[i].start < ts[j].start && ts[i].end <= ts[j].start {
      EndBeforeLaterStart(ts, gap, i, j);
    }
  }

  /** At a positive tempo, notes of a positive number of beats last a
      positive number of seconds. */
  lemma PositiveInSeconds(notes: seq<(string, real)>, beat: real)
    requires beat > 0.0
    requires forall i :: 0 <= i < |notes| ==> notes[i].1 > 0.0
    ensures forall i :: 0 <= i < |notes| ==> InSeconds(notes, beat)[i].1 > 0.0
  {
    forall i | 0 <= i < |notes| ensures InSeconds(notes, beat)[i].1 > 0.0 {
      MulStrict(beat, 0.0, notes[i].1);
    }
  }

  lemma {:induction false} EndBeforeLaterStart(ts: seq<Timing>, gap: real, i: nat, j: nat)
    requires gap >= 0.0 && i < j < |ts|
    requires forall k :: 0 <= k < |ts| ==> ts[k].start < ts[k].end
    requires forall k :: 0 < k < |ts| ==> ts[k].start == ts[k - 1].end + gap
    ensures ts[i].end <= ts[j].start && ts[i].start < ts[j].start
    decreases j - i
  {
    if j > i + 1 {
      EndBeforeLaterStart(ts, gap, i, j - 1);
    }
  }

  // ---------------------------------------------------------------------
  // The two songs

  /** TWINKLE_TWINKLE_NOTES: (note, beats). */
  const Twinkle: seq<(string, real)> := [
    ("C4", 1.0), ("C4", 1.0), ("G4", 1.0), ("G4", 1.0), ("A4", 1.0), ("A4", 1.0), ("G4", 2.0),
    ("F4", 1.0), ("F4", 1.0), ("E4", 1.0), ("E4", 1.0), ("D4", 1.0), ("D4", 1.0), ("C4", 2.0),
    ("G4", 1.0), ("G4", 1.0), ("F4", 1.0), ("F4", 1.0), ("E4", 1.0), ("E4", 1.0), ("D4", 2.0),
    ("G4", 1.0), ("G4", 1.0), ("F4", 1.0), ("F4", 1.0), ("E4", 1.0), ("E4", 1.0), ("D4", 2.0),
    ("C4", 1.0), ("C4", 1.0), ("G4", 1.0), ("G4", 1.0), ("A4", 1.0), ("A4", 1.0), ("G4", 2.0),
    ("F4", 1.0), ("F4", 1.0), ("E4", 1.0), ("E4", 1.0), ("D4", 1.0), ("D4", 1.0), ("C4", 2.0)]

  /** The melody `play_happy_birthday` passes to `generate_sequence`. */
  const HappyBirthday: seq<(string, real)> := [
    ("C4", 0.75), ("C4", 0.25), ("D4", 1.0), ("C4", 1.0), ("F4", 1.0), ("E4", 2.0),
    ("C4", 0.75), ("C4", 0.25), ("D4", 1.0), ("C4", 1.0), ("G4", 1.0), ("F4", 2.0),
    ("C4", 0.75), ("C4", 0.25), ("C5", 1.0), ("A4", 1.0), ("F4", 1.0), ("E4", 1.0), ("D4", 2.0),
    ("A4", 0.75), ("A4", 0.25), ("G4", 1.0), ("F4", 1.0), ("G4", 1.0), ("F4", 2.0)]

  /** The gap both songs are generated with. */
  const SongGap: real := 0.05

  /** Both melodies use only known notes with positive lengths, so at a
      positive tempo their schedules are strictly ordered; at 120 BPM the
      twinkle melody's first note spans [0, 0.5] and the second starts at
      0.55. */
  lemma SongsWellFormed()
    ensures |Twinkle| == 42 && |HappyBirthday| == 25
    ensures forall i :: 0 <= i < |Twinkle| ==> Twinkle[i].0 in NoteFrequencies && Twinkle[i].1 > 0.0
    ensures forall i :: 0 <= i < |HappyBirthday| ==>
      HappyBirthday[i].0 in NoteFrequencies && HappyBirthday[i].1 > 0.0
    ensures var ts := Schedule(InSeconds(Twinkle, 0.5), SongGap);
      ts[0] == Timing("C4", 0.0, 0.5) && ts[1].start == 0.55
  {
    var secs := InSeconds(Twinkle, 0.5);
    ScheduleShape(secs, SongGap);
    assert Twinkle[0] == ("C4", 1.0) && Twinkle[1] == ("C4", 1.0);
    assert secs[0] == ("C4", 0.5) && secs[1] == ("C4", 0.5);
  }
}
