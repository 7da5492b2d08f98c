/** Audio-reactive head motion (src/common/reachy/audio_reactive.py): the
    per-chunk feature extraction of AudioAnalyzer, the motion offsets drawn
    from the features, and the generation tagging of AudioReactiveMotion
    that discards audio fed before the latest start or reset. The worker
    thread is a sequential loop over explicit passes; `sqrt` and `sin` are
    parameters. */
module AudioReactive {
  import opened Util

  /** A float that may be NaN: numpy's mean of an empty chunk. */
  datatype Float = Finite(value: real) | NaN

  /** AudioFeatures. */
  datatype Features = Features(amplitude: Float, beatStrength: real, frequencyContent: real, timestamp: real)

  /** A (roll, pitch, yaw) offset in degrees. */
  datatype Motion = Motion(roll: Float, pitch: real, yaw: real)

  /** The history keeps about one second of hops. */
  const MaxHistory: nat := 43

  /** int16 samples scaled to [-1, 1). */
  function Normalized(samples: seq<int>): (r: seq<real>)
    ensures |r| == |samples|
    ensures forall i :: 0 <= i < |r| ==> r[i] == samples[i] as real / 32768.0
  {
    seq(|samples|, i requires 0 <= i < |samples| => samples[i] as real / 32768.0)
  }

  /** `np.sum(x ** 2)`. */
  function SumSquares(x: seq<real>): (r: real)
    ensures r >= 0.0
  {
    if |x| == 0 then 0.0 else SumSquares(x[..|x| - 1]) + x[|x| - 1] * x[|x| - 1]
  }

  /** `np.sum(np.diff(x) ** 2)`. */
  function SumSquaredDiffs(x: seq<real>): (r: real)
    ensures r >= 0.0
  {
    if |x| < 2 then 0.0
    else
      var d := x[|x| - 1] - x[|x| - 2];
      SumSquaredDiffs(x[..|x| - 1]) + d * d
  }

  /** The energy of a chunk: the sum of its squared normalised samples. */
  function Energy(samples: seq<int>): (e: real)
    ensures e >= 0.0
  {
    SumSquares(Normalized(samples))
  }

  /** The amplitude: three times the RMS of the chunk, clipped to [0, 1];
      NaN for an empty chunk, whose mean numpy reports as NaN. */
  function Amplitude(samples: seq<int>, sqrt: real -> real): (a: Float)
    ensures a.NaN? <==> |samples| == 0
    ensures a.Finite? ==> 0.0 <= a.value <= 1.0
  {
    if |samples| == 0 then NaN
    else Finite(Clip(sqrt(Energy(samples) / |samples| as real) * 3.0, 0.0, 1.0))
  }

  /** The history after one more energy: appended, and the oldest entry
      dropped once it would exceed MaxHistory entries. */
  function Push(history: seq<real>, e: real): (r: seq<real>)
    requires |history| <= MaxHistory
    ensures |r| == if |history| < MaxHistory then |history| + 1 else MaxHistory
    ensures r[|r| - 1] == e
  {
    if |history| + 1 > MaxHistory then (history + [e])[1..] else history + [e]
  }

  /** The history is a sliding window: below MaxHistory entries the energy
      is appended; at MaxHistory the oldest entry makes way for it. */
  lemma PushWindow(history: seq<real>, e: real)
    requires |history| <= MaxHistory
    ensures |history| < MaxHistory ==> Push(history, e) == history + [e]
    ensures |history| == MaxHistory ==> Push(history, e) == history[1..] + [e]
    ensures NonNegative(history) && e >= 0.0 ==> NonNegative(Push(history, e))
  {
  }

  predicate NonNegative(h: seq<real>)
  {
    forall i :: 0 <= i < |h| ==> h[i] >= 0.0
  }

  /** The beat strength read from the history after the current energy was
      pushed: 0 while the history holds at most 10 entries, otherwise how
      far the current energy exceeds 1.5 times the mean of the earlier
      entries, relative to that mean, clipped to [0, 1]. */
  function BeatStrength(history: seq<real>): (b: real)
    requires |history| > 0 && NonNegative(history)
    ensures 0.0 <= b <= 1.0
    ensures |history| <= 10 ==> b == 0.0
  {
    if |history| > 10 then
      var earlier := history[..|history| - 1];
      SumNonNegative(earlier);
      var avg := Sum(earlier) / |earlier| as real;
      Clip((history[|history| - 1] - avg * 1.5) / (avg + 0.000001), 0.0, 1.0)
    else 0.0
  }

  /** The share of high-frequency energy: 0.5 for chunks of at most 10
      samples, otherwise twice the squared-difference energy over the
      energy, clipped to [0, 1]. */
  function FrequencyContent(samples: seq<int>): (f: real)
    ensures 0.0 <= f <= 1.0
    ensures |samples| <= 10 ==> f == 0.5
  {
    if |samples| > 10 then
      Clip(SumSquaredDiffs(Normalized(samples)) / (Energy(samples) + 0.000001) * 2.0, 0.0, 1.0)
    else 0.5
  }

  /** `analyze_chunk` as a function of the history before the call. */
  function Analyze(history: seq<real>, samples: seq<int>, timestamp: real, sqrt: real -> real): Features
    requires |history| <= MaxHistory && NonNegative(history)
  {
    PushWindow(history, Energy(samples));
    var h := Push(history, Energy(samples));
    Features(Amplitude(samples, sqrt), BeatStrength(h), FrequencyContent(samples), timestamp)
  }

  const Pi: real := 3.141592653589793

  /** `_generate_motion`: a roll sway at 1.5 Hz scaled by the amplitude, a
      pitch bob scaled by the beat strength, and a yaw tilt at 0.8 Hz scaled
      by the frequency content. */
  function MotionOf(f: Features, sin: real -> real): Motion
  {
    var sway := sin(f.timestamp * 2.0 * Pi * 1.5) * 3.5;
    Motion(
      if f.amplitude.NaN? then NaN else Finite(sway * f.amplitude.value),
      -f.beatStrength * 4.5,
      sin(f.timestamp * 2.0 * Pi * 0.8) * 6.0 * f.frequencyContent)
  }

  /** A sine value scaled by a magnitude and a factor in [0, 1] stays
      within the magnitude times the factor. */
  lemma ScaledSine(s: real, m: real, a: real, x: real)
    requires -1.0 <= s <= 1.0 && m >= 0.0 && a >= 0.0 && x == s * m * a
    ensures -(m * a) <= x <= m * a
  {
    var ma := m * a;
    MulNonNegative(m, a);
    assert x == s * ma;
    MulNonNegative(1.0 - s, ma);
    MulNonNegative(1.0 + s, ma);
    assert ma - x == (1.0 - s) * ma;
    assert ma + x == (1.0 + s) * ma;
  }

  lemma MulNonNegative(a: real, b: real)
    requires a >= 0.0 && b >= 0.0
    ensures a * b >= 0.0
  {
  }

  /** The offsets stay within the magnitudes: pitch in [-4.5, 0], roll
      within 3.5 times the amplitude, yaw within 6 times the frequency
      content; an empty chunk makes the roll NaN. */
  lemma MotionBounds(f: Features, sin: real -> real)
    requires forall x :: -1.0 <= sin(x) <= 1.0
    requires f.amplitude.Finite? ==> 0.0 <= f.amplitude.value <= 1.0
    requires 0.0 <= f.beatStrength <= 1.0 && 0.0 <= f.frequencyContent <= 1.0
    ensures var m := MotionOf(f, sin);
      && -4.5 <= m.pitch <= 0.0 && m.pitch == -f.beatStrength * 4.5
      && (m.roll.NaN? <==> f.amplitude.NaN?)
      && (m.roll.Finite? ==> -3.5 * f.amplitude.value <= m.roll.value <= 3.5 * f.amplitude.value)
      && -6.0 * f.frequencyContent <= m.yaw <= 6.0 * f.frequencyContent
  {
    var m := MotionOf(f, sin);
    if f.amplitude.Finite? {
      ScaledSine(sin(f.timestamp * 2.0 * Pi * 1.5), 3.5, f.amplitude.value, m.roll.value);
    }
    ScaledSine(sin(f.timestamp * 2.0 * Pi * 0.8), 6.0, f.frequencyContent, m.yaw);
  }

  /** A chunk of silence, after any history: amplitude 0 (NaN when the
      chunk is empty) and no beat, since its energy 0 never exceeds the
      mean of the history; frequency content 0.5 up to 10 samples and 0
      (not 0.5) beyond. */
  lemma SilentChunk(history: seq<real>, n: nat, timestamp: real, sqrt: real -> real)
    requires |history| <= MaxHistory && NonNegative(history)
    requires sqrt(0.0) == 0.0
    ensures var f := Analyze(history, seq(n, i => 0), timestamp, sqrt);
      && f.amplitude == (if n == 0 then NaN else Finite(0.0))
      && f.beatStrength == 0.0
      && f.frequencyContent == (if n > 10 then 0.0 else 0.5)
  {
    var samples: seq<int> := seq(n, i => 0);
    ZeroChunk(samples);
    SilentBeat(history);
  }

  /** A silent chunk is never a beat: its energy 0 is below 1.5 times the
      non-negative mean of the entries before it. */
  lemma SilentBeat(history: seq<real>)
    requires |history| <= MaxHistory && NonNegative(history)
    ensures NonNegative(Push(history, 0.0)) && BeatStrength(Push(history, 0.0)) == 0.0
  {
    PushWindow(history, 0.0);
    var h := Push(history, 0.0);
    if |h| > 10 {
      var earlier := h[..|h| - 1];
      SumNonNegative(earlier);
      var avg := Sum(earlier) / |earlier| as real;
      assert (h[|h| - 1] - avg * 1.5) / (avg + 0.000001) <= 0.0 by {
        assert h[|h| - 1] - avg * 1.5 <= 0.0 && avg + 0.000001 > 0.0;
      }
    }
  }

  lemma {:induction false} ZeroChunk(samples: seq<int>)
    requires forall i :: 0 <= i < |samples| ==> samples[i] == 0
    ensures Energy(samples) == 0.0 && SumSquaredDiffs(Normalized(samples)) == 0.0
  {
    ZeroSquares(Normalized(samples));
  }

  lemma {:induction false} ZeroSquares(x: seq<real>)
    requires forall i :: 0 <= i < |x| ==> x[i] == 0.0
    ensures SumSquares(x) == 0.0 && SumSquaredDiffs(x) == 0.0
    decreases |x|
  {
    if |x| > 0 {
      ZeroSquares(x[..|x| - 1]);
    }
  }

  /** AudioAnalyzer: the energy history of the chunks analysed so far. */
  class AudioAnalyzer {
    var sampleRate: int
    var hopSize: int
    var history: seq<real>

    ghost predicate Valid()
      reads this
    {
      |history| <= MaxHistory && NonNegative(history)
    }

    constructor(sampleRate: int, hopSize: int)
      ensures Valid() && history == []
      ensures this.sampleRate == sampleRate && this.hopSize == hopSize
    {
      this.sampleRate := sampleRate;
      this.hopSize := hopSize;
      history := [];
    }

    /** `analyze_chunk`: the chunk's energy is pushed onto the history and
        the features are read from the new history. */
    method AnalyzeChunk(samples: seq<int>, timestamp: real, sqrt: real -> real) returns (f: Features)
      requires Valid()
      modifies this
      ensures Valid()
      ensures history == Push(old(history), Energy(samples))
      ensures f == Analyze(old(history), samples, timestamp, sqrt)
      ensures sampleRate == old(sampleRate) && hopSize == old(hopSize)
    {
      var audio := Normalized(samples);
      var amplitude := if |samples| == 0 then NaN else Finite(Clip(sqrt(SumSquares(audio) / |audio| as real) * 3.0, 0.0, 1.0));
      var energy := SumSquares(audio);
      history := history + [energy];
      if |history| > MaxHistory {
        history := history[1..];
      }
      var beatStrength := BeatStrength(history);
      var frequencyContent := 0.5;
      if |audio| > 10 {
        var highFrequency := SumSquaredDiffs(audio);
        frequencyContent := Clip(highFrequency / (energy + 0.000001) * 2.0, 0.0, 1.0);
      }
      f := Features(amplitude, beatStrength, frequencyContent, timestamp);
    }
  }

  /** A fed chunk, tagged with the generation current when it was fed. */
  datatype Chunk = Chunk(generation: int, samples: seq<int>, timestamp: real)

  /** The chunks of a queue that carry the given generation, in order. */
  function Current(q: seq<Chunk>, generation: int): (r: seq<Chunk>)
    ensures |r| <= |q|
  {
    if |q| == 0 then []
    else Current(q[..|q| - 1], generation) + (if q[|q| - 1].generation == generation then [q[|q| - 1]] else [])
  }

  /** The accepted chunks are exactly the queued chunks of the generation. */
  lemma {:induction false} CurrentMembers(q: seq<Chunk>, generation: int)
    ensures forall c :: c in Current(q, generation) <==> c in q && c.generation == generation
    decreases |q|
  {
    if |q| > 0 {
      CurrentMembers(q[..|q| - 1], generation);
      assert q == q[..|q| - 1] + [q[|q| - 1]];
    }
  }

  /** Chunks tagged with older generations are all discarded. */
  lemma StaleChunksDiscarded(q: seq<Chunk>, generation: int)
    requires forall c :: c in q ==> c.generation < generation
    ensures Current(q, generation) == []
  {
    CurrentMembers(q, generation);
    if Current(q, generation) != [] {
      assert Current(q, generation)[0] in Current(q, generation);
    }
  }

  /** The history after analysing the given chunks in order. */
  function PushAll(history: seq<real>, chunks: seq<Chunk>): (r: seq<real>)
    requires |history| <= MaxHistory && NonNegative(history)
    ensures |r| <= MaxHistory && NonNegative(r)
  {
    if |chunks| == 0 then history
    else
      var h := PushAll(history, chunks[..|chunks| - 1]);
      PushWindow(h, Energy(chunks[|chunks| - 1].samples));
      Push(h, Energy(chunks[|chunks| - 1].samples))
  }

  /** The offsets handed to the callback for the given chunks, each
      analysed against the history the chunks before it left. */
  function MotionsOf(history: seq<real>, chunks: seq<Chunk>, sqrt: real -> real, sin: real -> real): (r: seq<Motion>)
    requires |history| <= MaxHistory && NonNegative(history)
    ensures |r| == |chunks|
  {
    if |chunks| == 0 then []
    else
      var prefix, c := chunks[..|chunks| - 1], chunks[|chunks| - 1];
      MotionsOf(history, prefix, sqrt, sin)
      + [MotionOf(Analyze(PushAll(history, prefix), c.samples, c.timestamp, sqrt), sin)]
  }

  /** Each offset handed to the callback is bounded as MotionBounds says. */
  lemma MotionsBounded(history: seq<real>, chunks: seq<Chunk>, sqrt: real -> real, sin: real -> real)
    requires |history| <= MaxHistory && NonNegative(history)
    requires forall x :: -1.0 <= sin(x) <= 1.0
    ensures forall k :: 0 <= k < |chunks| ==>
      var m := MotionsOf(history, chunks, sqrt, sin)[k];
      -4.5 <= m.pitch <= 0.0 && (m.roll.Finite? ==> -3.5 <= m.roll.value <= 3.5) && -6.0 <= m.yaw <= 6.0
  {
    forall k | 0 <= k < |chunks|
      ensures var m := MotionsOf(history, chunks, sqrt, sin)[k];
        -4.5 <= m.pitch <= 0.0 && (m.roll.Finite? ==> -3.5 <= m.roll.value <= 3.5) && -6.0 <= m.yaw <= 6.0
    {
      MotionsPrefix(history, chunks, k + 1, sqrt, sin);
      var c := chunks[k];
      var f := Analyze(PushAll(history, chunks[..k]), c.samples, c.timestamp, sqrt);
      MotionBounds(f, sin);
    }
  }

  /** The k-th offset depends only on the chunks up to it. */
  lemma {:induction false} MotionsPrefix(history: seq<real>, chunks: seq<Chunk>, n: nat, sqrt: real -> real, sin: real -> real)
    requires |history| <= MaxHistory && NonNegative(history)
    requires 0 < n <= |chunks|
    ensures MotionsOf(history, chunks, sqrt, sin)[n - 1]
         == MotionOf(Analyze(PushAll(history, chunks[..n - 1]), chunks[n - 1].samples, chunks[n - 1].timestamp, sqrt), sin)
    decreases |chunks|
  {
    if n < |chunks| {
      var prefix := chunks[..|chunks| - 1];
      MotionsPrefix(history, prefix, n, sqrt, sin);
      assert prefix[..n - 1] == chunks[..n - 1];
    }
  }

  /** What processing a chunk changes: the analyser's energy history, the
      offsets handed to the callback so far, and the base timestamp. */
  datatype Progress = Progress(history: seq<real>, applied: seq<Motion>, base: Option<real>)

  predicate ProgressValid(p: Progress)
  {
    |p.history| <= MaxHistory && NonNegative(p.history)
  }

  /** One dequeued chunk: a chunk of another generation changes nothing; a
      current one fixes the base timestamp if none is set yet, is analysed
      against the history, and its offsets are handed over. */
  function Step(p: Progress, c: Chunk, generation: int, sqrt: real -> real, sin: real -> real): (r: Progress)
    requires ProgressValid(p)
    ensures ProgressValid(r)
    ensures c.generation != generation ==> r == p
    ensures c.generation == generation ==> |r.applied| == |p.applied| + 1 && r.base.Some?
  {
    if c.generation != generation then p
    else
      PushWindow(p.history, Energy(c.samples));
      Progress(Push(p.history, Energy(c.samples)),
               p.applied + [MotionOf(Analyze(p.history, c.samples, c.timestamp, sqrt), sin)],
               if p.base.None? then Some(c.timestamp) else p.base)
  }

  /** The chunks dequeued in order, one Step each. */
  function Run(p: Progress, chunks: seq<Chunk>, generation: int, sqrt: real -> real, sin: real -> real): (r: Progress)
    requires ProgressValid(p)
    ensures ProgressValid(r)
  {
    if |chunks| == 0 then p
    else Step(Run(p, chunks[..|chunks| - 1], generation, sqrt, sin), chunks[|chunks| - 1], generation, sqrt, sin)
  }

  /** Processing a run of chunks pushes exactly the energies of the accepted
      ones (those of the generation), in order. */
  lemma {:induction false} RunHistory(p: Progress, chunks: seq<Chunk>, generation: int, sqrt: real -> real, sin: real -> real)
    requires ProgressValid(p)
    ensures Run(p, chunks, generation, sqrt, sin).history == PushAll(p.history, Current(chunks, generation))
    decreases |chunks|
  {
    if |chunks| > 0 {
      var q, c := chunks[..|chunks| - 1], chunks[|chunks| - 1];
      assert chunks == q + [c];
      RunHistory(p, q, generation, sqrt, sin);
      CurrentSnoc(q, c, generation);
      if c.generation == generation {
        AcceptOne(p.history, Current(q, generation), c, sqrt, sin);
      } else {
        assert Current(q, generation) + [] == Current(q, generation);
      }
    }
  }

  /** Processing a run of chunks hands over, after what was already handed
      over, the offsets of exactly the accepted chunks, in order. */
  lemma {:induction false} RunApplied(p: Progress, chunks: seq<Chunk>, generation: int, sqrt: real -> real, sin: real -> real)
    requires ProgressValid(p)
    ensures Run(p, chunks, generation, sqrt, sin).applied
         == p.applied + MotionsOf(p.history, Current(chunks, generation), sqrt, sin)
    decreases |chunks|
  {
    if |chunks| > 0 {
      var q, c := chunks[..|chunks| - 1], chunks[|chunks| - 1];
      assert chunks == q + [c];
      RunApplied(p, q, generation, sqrt, sin);
      RunAppliedSnoc(p, q, c, generation, sqrt, sin);
    }
  }

  /** The inductive step of RunApplied: one more dequeued chunk. */
  lemma RunAppliedSnoc(p: Progress, q: seq<Chunk>, c: Chunk, generation: int, sqrt: real -> real, sin: real -> real)
    requires ProgressValid(p)
    requires Run(p, q, generation, sqrt, sin).applied == p.applied + MotionsOf(p.history, Current(q, generation), sqrt, sin)
    ensures Run(p, q + [c], generation, sqrt, sin).applied
         == p.applied + MotionsOf(p.history, Current(q + [c], generation), sqrt, sin)
  {
    assert (q + [c])[..|q|] == q;
    var before := Run(p, q, generation, sqrt, sin);
    assert Run(p, q + [c], generation, sqrt, sin) == Step(before, c, generation, sqrt, sin);
    RunHistory(p, q, generation, sqrt, sin);
    CurrentSnoc(q, c, generation);
    StepApplied(before, c, generation, sqrt, sin);
    var accepted := Current(q, generation);
    var ms := MotionsOf(p.history, accepted, sqrt, sin);
    if c.generation == generation {
      AcceptOne(p.history, accepted, c, sqrt, sin);
      var m := MotionOf(Analyze(before.history, c.samples, c.timestamp, sqrt), sin);
      assert (p.applied + ms) + [m] == p.applied + (ms + [m]);
    } else {
      assert accepted + [] == accepted;
    }
  }

  /** One Step hands over the offsets of its chunk exactly when the chunk
      is of the generation. */
  lemma StepApplied(p: Progress, c: Chunk, generation: int, sqrt: real -> real, sin: real -> real)
    requires ProgressValid(p)
    ensures Step(p, c, generation, sqrt, sin).applied
         == p.applied + (if c.generation == generation then [MotionOf(Analyze(p.history, c.samples, c.timestamp, sqrt), sin)] else [])
  {
    if c.generation != generation {
      assert p.applied + [] == p.applied;
    }
  }

  /** The base timestamp is the one already set, or else that of the first
      accepted chunk, or else still unset. */
  lemma {:induction false} RunBase(p: Progress, chunks: seq<Chunk>, generation: int, sqrt: real -> real, sin: real -> real)
    requires ProgressValid(p)
    ensures var accepted, r := Current(chunks, generation), Run(p, chunks, generation, sqrt, sin);
      && (p.base.Some? ==> r.base == p.base)
      && (p.base.None? && |accepted| == 0 ==> r.base == None)
      && (p.base.None? && |accepted| > 0 ==> r.base == Some(accepted[0].timestamp))
    decreases |chunks|
  {
    if |chunks| > 0 {
      var q, c := chunks[..|chunks| - 1], chunks[|chunks| - 1];
      assert chunks == q + [c];
      RunBase(p, q, generation, sqrt, sin);
      CurrentSnoc(q, c, generation);
    }
  }

  /** AudioReactiveMotion with its callback replaced by the log of the
      offsets handed to it. */
  class AudioReactiveMotion {
    var analyzer: AudioAnalyzer
    var queue: seq<Chunk>
    var generation: int
    var baseTimestamp: Option<real>
    /** A processing thread has been created. */
    var started: bool
    /** The processing thread is alive. */
    var running: bool
    var stopRequested: bool
    /** The offsets handed to the motion callback, in order. */
    var applied: seq<Motion>
    var sampleRate: int
    var movementLatency: real

    ghost predicate Valid()
      reads this, analyzer
    {
      && analyzer.Valid()
      && forall c :: c in queue ==> c.generation <= generation
    }

    /** The part of the state that processing changes. */
    ghost function Snapshot(): Progress
      reads this, analyzer
    {
      Progress(analyzer.history, applied, baseTimestamp)
    }

    constructor(sampleRate: int, movementLatency: real)
      ensures Valid() && fresh(analyzer)
      ensures queue == [] && generation == 0 && baseTimestamp == None && applied == []
      ensures !started && !running && !stopRequested && analyzer.history == []
    {
      analyzer := new AudioAnalyzer(sampleRate, 512);
      queue := [];
      generation := 0;
      baseTimestamp := None;
      started := false;
      running := false;
      stopRequested := false;
      applied := [];
      this.sampleRate := sampleRate;
      this.movementLatency := movementLatency;
    }

    /** `feed_audio`: the chunk joins the queue, tagged with the current
        generation, whatever the state. */
    method FeedAudio(samples: seq<int>, timestamp: real)
      requires Valid()
      modifies this
      ensures Valid()
      ensures queue == old(queue) + [Chunk(generation, samples, timestamp)]
      ensures generation == old(generation) && baseTimestamp == old(baseTimestamp) && applied == old(applied)
      ensures started == old(started) && running == old(running) && stopRequested == old(stopRequested)
      ensures analyzer == old(analyzer)
    {
      queue := queue + [Chunk(generation, samples, timestamp)];
    }

    /** `start`: a no-op while the thread is alive; otherwise a new
        generation begins, so every chunk already queued is stale. */
    method Start()
      requires Valid()
      modifies this
      ensures Valid()
      ensures queue == old(queue) && applied == old(applied) && analyzer == old(analyzer)
      ensures old(running) ==>
        generation == old(generation) && baseTimestamp == old(baseTimestamp)
        && started == old(started) && running && stopRequested == old(stopRequested)
      ensures !old(running) ==>
        generation == old(generation) + 1 && baseTimestamp == None && started && running && !stopRequested
      ensures !old(running) ==> Current(queue, generation) == []
    {
      if running {
        return;
      }
      StaleChunksDiscarded(queue, generation + 1);
      stopRequested := false;
      generation := generation + 1;
      baseTimestamp := None;
      started := true;
      running := true;
    }

    /** `stop`: nothing if no thread was ever created; otherwise the stop
        flag is set and the callback is handed (0, 0, 0), a failure of which
        is swallowed. */
    method Stop()
      requires Valid()
      modifies this
      ensures Valid()
      ensures queue == old(queue) && generation == old(generation) && baseTimestamp == old(baseTimestamp)
      ensures started == old(started) && running == old(running) && analyzer == old(analyzer)
      ensures !old(started) ==> applied == old(applied) && stopRequested == old(stopRequested)
      ensures old(started) ==> stopRequested && applied == old(applied) + [Motion(Finite(0.0), 0.0, 0.0)]
    {
      if !started {
        return;
      }
      stopRequested := true;
      applied := applied + [Motion(Finite(0.0), 0.0, 0.0)];
    }

    /** `reset`: a new generation, no base timestamp, and an empty queue. */
    method Reset()
      requires Valid()
      modifies this
      ensures Valid()
      ensures generation == old(generation) + 1 && baseTimestamp == None && queue == []
      ensures applied == old(applied) && analyzer == old(analyzer)
      ensures started == old(started) && running == old(running) && stopRequested == old(stopRequested)
    {
      generation := generation + 1;
      baseTimestamp := None;
      queue := [];
    }

    /** One pass of `_processing_loop` that dequeues a chunk: a chunk of an
        older generation is dropped without analysis or callback; a current
        one fixes the base timestamp if none is set yet, is analysed, and
        its offsets are handed to the callback (a failing callback is
        logged, which changes nothing here). */
    method ProcessNext(sqrt: real -> real, sin: real -> real)
      requires Valid() && |queue| > 0
      modifies this, analyzer
      ensures Valid() && analyzer == old(analyzer)
      ensures queue == old(queue)[1..] && generation == old(generation)
      ensures started == old(started) && running == old(running) && stopRequested == old(stopRequested)
      ensures Snapshot() == Step(old(Snapshot()), old(queue)[0], generation, sqrt, sin)
    {
      var c := queue[0];
      queue := queue[1..];
      if c.generation != generation {
        return;
      }
      if baseTimestamp.None? {
        baseTimestamp := Some(c.timestamp);
      }
      var features := analyzer.AnalyzeChunk(c.samples, c.timestamp, sqrt);
      applied := applied + [MotionOf(features, sin)];
    }

    /** A pass that finds the n-th chunk of q0 at the head of the queue. */
    method Pass(ghost q0: seq<Chunk>, ghost p0: Progress, n: nat, sqrt: real -> real, sin: real -> real)
      requires Valid() && n < |q0| && queue == q0[n..] && ProgressValid(p0)
      requires Snapshot() == Run(p0, q0[..n], generation, sqrt, sin)
      modifies this, analyzer
      ensures Valid() && analyzer == old(analyzer) && queue == q0[n + 1..]
      ensures generation == old(generation) && started == old(started) && stopRequested == old(stopRequested)
      ensures running == old(running)
      ensures Snapshot() == Run(p0, q0[..n + 1], generation, sqrt, sin)
    {
      ProcessNext(sqrt, sin);
      assert q0[..n + 1][..n] == q0[..n];
    }

    /** `_processing_loop` over the given passes, each of which sees the
        stop flag set if `stop` already set it or `stopSeen` says another
        thread set it meanwhile. A pass that sees it ends the loop (and the
        thread) with the flag recorded; a pass that finds the queue empty
        only waits. The chunks processed are a prefix of the queue, each
        taken as Step says; after a `stop`, no pass processes anything, so
        the zero offset `stop` hands over stays the last one. */
    method ProcessingLoop(stopSeen: seq<bool>, sqrt: real -> real, sin: real -> real)
      returns (processed: nat)
      requires Valid()
      modifies this, analyzer
      ensures Valid() && analyzer == old(analyzer)
      ensures processed <= |old(queue)| && queue == old(queue)[processed..]
      ensures generation == old(generation) && started == old(started)
      ensures Snapshot() == Run(old(Snapshot()), old(queue)[..processed], generation, sqrt, sin)
      ensures old(stopRequested) ==> processed == 0 && applied == old(applied) && Snapshot() == old(Snapshot())
      ensures stopRequested == (old(stopRequested) || exists k :: 0 <= k < |stopSeen| && stopSeen[k])
      ensures running ==
        (old(running) && (|stopSeen| == 0 || (!old(stopRequested) && forall k :: 0 <= k < |stopSeen| ==> !stopSeen[k])))
    {
      if stopRequested {
        if |stopSeen| > 0 {
          running := false;
        }
        assert queue[..0] == [] && queue[0..] == queue;
        return 0;
      }
      var k;
      processed, k := Passes(stopSeen, sqrt, sin);
      if k < |stopSeen| {
        running := false;
        stopRequested := true;
      }
    }

    /** The passes of `_processing_loop` up to the first that sees the
        stop flag set by another thread (or all of them): each dequeues the
        next chunk, if any, and takes it as Step says. */
    method Passes(stopSeen: seq<bool>, sqrt: real -> real, sin: real -> real)
      returns (processed: nat, k: nat)
      requires Valid()
      modifies this, analyzer
      ensures Valid() && analyzer == old(analyzer)
      ensures processed <= |old(queue)| && queue == old(queue)[processed..]
      ensures generation == old(generation) && started == old(started) && stopRequested == old(stopRequested)
      ensures running == old(running)
      ensures Snapshot() == Run(old(Snapshot()), old(queue)[..processed], generation, sqrt, sin)
      ensures k <= |stopSeen| && (forall j :: 0 <= j < k ==> !stopSeen[j]) && (k < |stopSeen| ==> stopSeen[k])
    {
      ghost var q0, p0 := queue, Snapshot();
      processed := 0;
      k := 0;
      while k < |stopSeen| && !stopSeen[k]
        invariant Valid() && analyzer == old(analyzer)
        invariant 0 <= k <= |stopSeen| && forall j :: 0 <= j < k ==> !stopSeen[j]
        invariant processed <= |q0| && queue == q0[processed..]
        invariant generation == old(generation) && started == old(started) && stopRequested == old(stopRequested)
        invariant running == old(running)
        invariant Snapshot() == Run(p0, q0[..processed], generation, sqrt, sin)
        decreases |stopSeen| - k
      {
        if |queue| > 0 {
          Pass(q0, p0, processed, sqrt, sin);
          processed := processed + 1;
        }
        k := k + 1;
      }
    }
  }

  /** Taking one more chunk of the queue: a chunk of the generation is
      accepted, any other is not. */
  lemma CurrentSnoc(q: seq<Chunk>, c: Chunk, g: int)
    ensures Current(q + [c], g) == Current(q, g) + (if c.generation == g then [c] else [])
  {
    assert (q + [c])[..|q|] == q;
  }

  /** One more accepted chunk pushes its energy and hands over its offsets. */
  lemma AcceptOne(h0: seq<real>, accepted: seq<Chunk>, c: Chunk, sqrt: real -> real, sin: real -> real)
    requires |h0| <= MaxHistory && NonNegative(h0)
    ensures PushAll(h0, accepted + [c]) == Push(PushAll(h0, accepted), Energy(c.samples))
    ensures MotionsOf(h0, accepted + [c], sqrt, sin)
         == MotionsOf(h0, accepted, sqrt, sin) + [MotionOf(Analyze(PushAll(h0, accepted), c.samples, c.timestamp, sqrt), sin)]
  {
    assert (accepted + [c])[..|accepted|] == accepted;
  }

  /** Chunks fed before a start are never analysed: after feeding and then
      starting, nothing in the queue carries the current generation. */
  lemma FedBeforeStartDiscarded(q: seq<Chunk>, generation: int, samples: seq<int>, timestamp: real)
    requires forall c :: c in q ==> c.generation <= generation
    ensures Current(q + [Chunk(generation, samples, timestamp)], generation + 1) == []
  {
    StaleChunksDiscarded(q + [Chunk(generation, samples, timestamp)], generation + 1);
  }
}
