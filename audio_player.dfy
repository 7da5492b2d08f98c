/** The synchronised audio player (src/common/reachy/audio_player.py): a
    loaded int16 buffer is cut into 50 ms chunks that go to the output
    stream (zero-padded to a full block) and to an optional callback, under
    a playing flag and a stop event. Threads are not modelled: a
    non-blocking `play` only records that the playback thread was started,
    and a `stop()` issued by another thread while a loop runs is given to the
    loop as the number of chunks sent before the loop sees the stop event. */
module AudioPlayer {
  import opened Util

  /** `int(sample_rate * 0.05)`: the samples in 50 ms. */
  function ChunkSize(sampleRate: int): int
  {
    Trunc(sampleRate as real * 0.05)
  }

  /** For a non-negative rate the chunk is a twentieth of it, rounded down,
      so it is at least one sample from 20 Hz on. */
  lemma ChunkSizeTwentieth(sampleRate: nat)
    ensures ChunkSize(sampleRate) == sampleRate / 20
    ensures sampleRate >= 20 ==> ChunkSize(sampleRate) >= 1
  {
    TruncTwentieth(sampleRate);
    assert sampleRate as real * 0.05 == 0.05 * sampleRate as real;
  }

  /** The slices `[offset, min(offset + c, len))` taken by the playback
      loops, for offset = 0, c, 2c, ... while offset < len. */
  function Chunks(a: seq<int>, c: nat): seq<seq<int>>
    requires c > 0
    decreases |a|
  {
    if |a| == 0 then []
    else
      var e := if c <= |a| then c else |a|;
      [a[..e]] + Chunks(a[e..], c)
  }

  /** The samples of a list of chunks, in order. */
  function Flatten(cs: seq<seq<int>>): seq<int>
  {
    if |cs| == 0 then [] else cs[0] + Flatten(cs[1..])
  }

  /** One step of the loops: a non-empty buffer yields its first slice,
      then the chunks of what follows it; an empty one yields none. */
  lemma ChunksHead(a: seq<int>, c: nat)
    requires c > 0
    ensures |Chunks(a, c)| == 0 <==> |a| == 0
    ensures |a| > 0 ==>
      var e := if c <= |a| then c else |a|;
      Chunks(a, c)[0] == a[..e] && Chunks(a, c)[1..] == Chunks(a[e..], c)
  {
  }

  /** The offset of the k-th pass of a loop: c added k times. */
  function Offset(k: nat, c: nat): nat
  {
    if k == 0 then 0 else Offset(k - 1, c) + c
  }

  lemma {:induction false} OffsetIsProduct(k: nat, c: nat)
    ensures Offset(k, c) == k * c
  {
    if k > 0 {
      OffsetIsProduct(k - 1, c);
      assert (k - 1) * c + c == k * c;
    }
  }

  /** After k passes of a loop, the chunks still to come are those of the
      buffer from `Offset(k, c)` on. */
  lemma {:induction false} ViewAt(a: seq<int>, c: nat, k: nat)
    requires c > 0 && k <= |Chunks(a, c)|
    ensures ChunksFrom(a, c, Offset(k, c), k)
  {
    if k == 0 {
      assert a[0..] == a;
    } else {
      ViewAt(a, c, k - 1);
      LoopEnd(a, c, Offset(k - 1, c), k - 1);
      LoopStep(a, c, Offset(k - 1, c), k - 1);
    }
  }

  /** The k-th chunk is exactly the slice `[k*c, min(k*c + c, len))`. */
  lemma ChunksSlices(a: seq<int>, c: nat, k: nat)
    requires c > 0 && k < |Chunks(a, c)|
    ensures k * c < |a|
    ensures Chunks(a, c)[k] == a[k * c .. if k * c + c <= |a| then k * c + c else |a|]
  {
    ViewAt(a, c, k);
    LoopEnd(a, c, Offset(k, c), k);
    LoopStep(a, c, Offset(k, c), k);
    OffsetIsProduct(k, c);
  }

  /** The chunk count is the buffer length divided by c, rounded up. */
  lemma {:induction false} ChunksCount(a: seq<int>, c: nat)
    requires c > 0
    ensures |a| <= |Chunks(a, c)| * c < |a| + c
    decreases |a|
  {
    if |a| > c {
      ChunksCount(a[c..], c);
      var n := |Chunks(a[c..], c)|;
      assert |Chunks(a, c)| == n + 1;
      assert (n + 1) * c == n * c + c;
    }
  }

  /** Every chunk is non-empty and at most c long, and only the last one
      can be shorter than c. */
  lemma ChunksShape(a: seq<int>, c: nat)
    requires c > 0
    ensures forall k :: 0 <= k < |Chunks(a, c)| ==> 0 < |Chunks(a, c)[k]| <= c
    ensures forall k :: 0 <= k < |Chunks(a, c)| - 1 ==> |Chunks(a, c)[k]| == c
  {
    forall k | 0 <= k < |Chunks(a, c)|
      ensures 0 < |Chunks(a, c)[k]| <= c
      ensures k < |Chunks(a, c)| - 1 ==> |Chunks(a, c)[k]| == c
    {
      ChunksSlices(a, c, k);
      if k < |Chunks(a, c)| - 1 {
        ChunksSlices(a, c, k + 1);
        assert (k + 1) * c == k * c + c;
      }
    }
  }

  /** Unstopped, the chunks hand on every sample exactly once, in order. */
  lemma {:induction false} ChunksFlatten(a: seq<int>, c: nat)
    requires c > 0
    ensures Flatten(Chunks(a, c)) == a
    decreases |a|
  {
    if |a| > 0 {
      var e := if c <= |a| then c else |a|;
      ChunksFlatten(a[e..], c);
      assert a[..e] + a[e..] == a;
    }
  }

  lemma {:induction false} FlattenAppend(xs: seq<seq<int>>, ys: seq<seq<int>>)
    ensures Flatten(xs + ys) == Flatten(xs) + Flatten(ys)
  {
    if |xs| == 0 {
      assert xs + ys == ys;
    } else {
      calc {
        Flatten(xs + ys);
      == { assert (xs + ys)[0] == xs[0] && (xs + ys)[1..] == xs[1..] + ys; }
        xs[0] + Flatten(xs[1..] + ys);
      == { FlattenAppend(xs[1..], ys); }
        xs[0] + (Flatten(xs[1..]) + Flatten(ys));
      ==
        (xs[0] + Flatten(xs[1..])) + Flatten(ys);
      }
    }
  }

  /** The first k chunks and the samples from the k-th offset on make up
      the buffer. */
  lemma SplitAtOffset(a: seq<int>, c: nat, k: nat)
    requires c > 0 && k <= |Chunks(a, c)|
    ensures Flatten(Chunks(a, c)[..k]) + a[if Offset(k, c) <= |a| then Offset(k, c) else |a|..] == a
  {
    var cs := Chunks(a, c);
    var lo := if Offset(k, c) <= |a| then Offset(k, c) else |a|;
    calc {
      Flatten(cs[..k]) + a[lo..];
    == { ViewAt(a, c, k); ChunksFlatten(a[lo..], c); }
      Flatten(cs[..k]) + Flatten(cs[k..]);
    == { FlattenAppend(cs[..k], cs[k..]); }
      Flatten(cs[..k] + cs[k..]);
    == { assert cs[..k] + cs[k..] == cs; }
      Flatten(cs);
    == { ChunksFlatten(a, c); }
      a;
    }
  }

  /** Stopped after k chunks, the samples handed on are exactly the first
      min(k*c, len) samples of the buffer. */
  lemma ChunksPrefix(a: seq<int>, c: nat, k: nat)
    requires c > 0 && k <= |Chunks(a, c)|
    ensures Flatten(Chunks(a, c)[..k]) == a[..if k * c <= |a| then k * c else |a|]
  {
    var lo := if Offset(k, c) <= |a| then Offset(k, c) else |a|;
    var x := Flatten(Chunks(a, c)[..k]);
    SplitAtOffset(a, c, k);
    assert x == (x + a[lo..])[..|x|];
    OffsetIsProduct(k, c);
  }

  /** `len` zero samples. */
  function Zeros(n: nat): seq<int>
  {
    seq(n, _ => 0)
  }

  /** `np.pad(chunk, (0, c - len(chunk)))` when the chunk is short. */
  function Pad(chunk: seq<int>, c: nat): seq<int>
  {
    if |chunk| < c then chunk + Zeros(c - |chunk|) else chunk
  }

  function PadAll(cs: seq<seq<int>>, c: nat): seq<seq<int>>
  {
    seq(|cs|, i requires 0 <= i < |cs| => Pad(cs[i], c))
  }

  /** A padded chunk fills a whole block: its samples, then silence. */
  lemma PadFillsBlock(chunk: seq<int>, c: nat)
    requires |chunk| <= c
    ensures |Pad(chunk, c)| == c
    ensures Pad(chunk, c)[..|chunk|] == chunk
    ensures forall i :: |chunk| <= i < c ==> Pad(chunk, c)[i] == 0
  {
  }

  /** Every block written to the stream is exactly c samples, and every
      block but the last is the chunk itself, unpadded. */
  lemma WrittenBlocks(a: seq<int>, c: nat)
    requires c > 0
    ensures forall k :: 0 <= k < |Chunks(a, c)| ==> |PadAll(Chunks(a, c), c)[k]| == c
    ensures forall k :: 0 <= k < |Chunks(a, c)| - 1 ==> PadAll(Chunks(a, c), c)[k] == Chunks(a, c)[k]
  {
    ChunksShape(a, c);
    forall k | 0 <= k < |Chunks(a, c)| ensures |PadAll(Chunks(a, c), c)[k]| == c {
      PadFillsBlock(Chunks(a, c)[k], c);
    }
  }

  lemma PadAllCons(x: seq<int>, r: seq<seq<int>>, c: nat)
    ensures Flatten(PadAll([x] + r, c)) == Pad(x, c) + Flatten(PadAll(r, c))
  {
    var ps := PadAll([x] + r, c);
    assert ps[0] == Pad(x, c);
    assert ps[1..] == PadAll(r, c);
  }

  /** The whole stream is the audio followed by the silence that completes
      its last block, which is shorter than a block. */
  lemma {:induction false} WrittenStream(a: seq<int>, c: nat)
    requires c > 0
    ensures var s := Flatten(PadAll(Chunks(a, c), c));
      |a| <= |s| < |a| + c && s == a + Zeros(|s| - |a|)
    decreases |a|
  {
    if |a| == 0 {
      assert Chunks(a, c) == [];
      assert a + Zeros(0) == a;
    } else if |a| <= c {
      LastBlock(a, c);
    } else {
      var tail := a[c..];
      var rest := Chunks(tail, c);
      WrittenStream(tail, c);
      var t := Flatten(PadAll(rest, c));
      var m := |t| - |tail|;
      calc {
        Flatten(PadAll(Chunks(a, c), c));
      == { ChunksHead(a, c); assert Chunks(a, c) == [a[..c]] + rest; }
        Flatten(PadAll([a[..c]] + rest, c));
      == { PadAllCons(a[..c], rest, c); }
        Pad(a[..c], c) + t;
      ==
        a[..c] + (tail + Zeros(m));
      == { assert a[..c] + tail == a; }
        a + Zeros(m);
      }
    }
  }

  lemma LastBlock(a: seq<int>, c: nat)
    requires 0 < |a| <= c
    ensures Flatten(PadAll(Chunks(a, c), c)) == a + Zeros(c - |a|)
  {
    assert a[..|a|] == a && a[|a|..] == [];
    assert Chunks(a, c) == [a] + [];
    PadAllCons(a, [], c);
    assert Zeros(0) == [];
  }

  /** The loops' view of the chunks: from sample `offset` on (clamped to
      the end), the remaining chunks are those of the rest of the buffer. */
  ghost predicate ChunksFrom(data: seq<int>, c: nat, offset: int, i: nat)
    requires c > 0
  {
    i <= |Chunks(data, c)|
    && Chunks(data, c)[i..] == Chunks(data[if 0 <= offset <= |data| then offset else |data|..], c)
  }

  /** One pass of a loop body: the slice it takes is the next chunk, and
      advancing the offset by c keeps the view. */
  lemma {:induction false} LoopStep(data: seq<int>, c: nat, offset: nat, i: nat)
    requires c > 0 && offset < |data| && ChunksFrom(data, c, offset, i)
    ensures i < |Chunks(data, c)|
    ensures Chunks(data, c)[i] == data[offset..if offset + c <= |data| then offset + c else |data|]
    ensures ChunksFrom(data, c, offset + c, i + 1)
  {
    var rem := data[offset..];
    var e := if c <= |rem| then c else |rem|;
    ChunksHead(rem, c);
    assert rem[..e] == data[offset..offset + e];
    assert rem[e..] == data[offset + e..];
    var cs := Chunks(data, c);
    assert cs[i + 1..] == cs[i..][1..];
  }

  /** When the offset reaches the end, every chunk has been taken. */
  lemma LoopEnd(data: seq<int>, c: nat, offset: nat, i: nat)
    requires c > 0 && ChunksFrom(data, c, offset, i)
    ensures i == |Chunks(data, c)| <==> offset >= |data|
  {
    var lo := if offset <= |data| then offset else |data|;
    ChunksHead(data[lo..], c);
  }

  lemma PadAllSnoc(cs: seq<seq<int>>, i: nat, c: nat)
    requires i < |cs|
    ensures PadAll(cs[..i + 1], c) == PadAll(cs[..i], c) + [Pad(cs[i], c)]
  {
  }

  /** Chunks sent before the loop ends: none when the stop event is already
      set; otherwise all of them, unless another thread's `stop()` is seen
      after `stopAfter.value` of them. */
  function Sent(n: nat, stopped: bool, stopAfter: Option<nat>): (k: nat)
  {
    if stopped then 0
    else if stopAfter.Some? && stopAfter.value < n then stopAfter.value
    else n
  }

  /** Whether the stop event is set once the loop ends. */
  predicate StoppedAfter(n: nat, stopped: bool, stopAfter: Option<nat>)
  {
    stopped || (stopAfter.Some? && stopAfter.value < n)
  }

  /** A loop sends at most every chunk, sends all of them exactly when it
      ends with the stop event clear, and an event left set silences the
      next loop entirely. */
  lemma SentProperties(n: nat, stopped: bool, stopAfter: Option<nat>)
    ensures Sent(n, stopped, stopAfter) <= n
    ensures Sent(n, stopped, stopAfter) == n <==> !StoppedAfter(n, stopped, stopAfter) || n == 0
    ensures StoppedAfter(n, stopped, stopAfter) ==> Sent(n, StoppedAfter(n, stopped, stopAfter), None) == 0
  {
  }

  /** The loop of `_playback_loop`: from offset 0 in steps of c, while the
      offset is inside the buffer and the stop event is clear, the slice
      up to the next offset is padded to a full block and sent. `stopped`
      is the event at entry; `stopSeen` is the event at exit. */
  method StreamBlocks(data: seq<int>, c: nat, stopped: bool, stopAfter: Option<nat>)
    returns (blocks: seq<seq<int>>, stopSeen: bool)
    requires c > 0
    ensures blocks == PadAll(Chunks(data, c)[..Sent(|Chunks(data, c)|, stopped, stopAfter)], c)
    ensures stopSeen == StoppedAfter(|Chunks(data, c)|, stopped, stopAfter)
  {
    ghost var cs := Chunks(data, c);
    blocks := [];
    var offset := 0;
    var i := 0;
    while offset < |data| && !stopped && stopAfter != Some(i)
      invariant ChunksFrom(data, c, offset, i)
      invariant !stopped || i == 0
      invariant stopAfter.Some? ==> i <= stopAfter.value
      invariant blocks == PadAll(cs[..i], c)
    {
      var chunkEnd := if offset + c <= |data| then offset + c else |data|;
      var chunk := data[offset..chunkEnd];
      LoopStep(data, c, offset, i);
      var block := Pad(chunk, c);
      PadAllSnoc(cs, i, c);
      blocks := blocks + [block];
      offset := offset + c;
      i := i + 1;
    }
    LoopEnd(data, c, offset, i);
    // short of the end, the loop saw the event (set by another thread's `stop()`)
    stopSeen := stopped || offset < |data|;
  }

  /** The loop of `_simulate_playback`: the same slices, unpadded. */
  method SimulatedChunks(data: seq<int>, c: nat, stopped: bool, stopAfter: Option<nat>)
    returns (chunks: seq<seq<int>>, stopSeen: bool)
    requires c > 0
    ensures chunks == Chunks(data, c)[..Sent(|Chunks(data, c)|, stopped, stopAfter)]
    ensures stopSeen == StoppedAfter(|Chunks(data, c)|, stopped, stopAfter)
  {
    ghost var cs := Chunks(data, c);
    chunks := [];
    var offset := 0;
    var i := 0;
    while offset < |data| && !stopped && stopAfter != Some(i)
      invariant ChunksFrom(data, c, offset, i)
      invariant !stopped || i == 0
      invariant stopAfter.Some? ==> i <= stopAfter.value
      invariant chunks == cs[..i]
    {
      var chunkEnd := if offset + c <= |data| then offset + c else |data|;
      var chunk := data[offset..chunkEnd];
      LoopStep(data, c, offset, i);
      assert cs[..i + 1] == cs[..i] + [chunk];
      chunks := chunks + [chunk];
      offset := offset + c;
      i := i + 1;
    }
    LoopEnd(data, c, offset, i);
    stopSeen := stopped || offset < |data|;
  }

  /** The player. `hasCallback` says whether an audio callback was given,
      `deviceAvailable` whether sounddevice imported. `written` logs the
      blocks written to the output stream and `delivered` the chunks handed
      to the callback; a callback that raises is logged and swallowed, so
      delivery never depends on it. A run's chunks are appended to the logs
      when its loop ends: with no second thread reading the logs, the order
      of the appends is all that is observable. */
  class Player {
    const sampleRate: int
    const hasCallback: bool
    const deviceAvailable: bool
    var audio: Option<seq<int>>
    var duration: real
    var playing: bool
    var startTime: Option<real>
    var stopSet: bool
    var threadStarted: bool
    var written: seq<seq<int>>
    var delivered: seq<seq<int>>

    constructor(sampleRate: int, hasCallback: bool, deviceAvailable: bool)
      ensures this.sampleRate == sampleRate && this.hasCallback == hasCallback
      ensures this.deviceAvailable == deviceAvailable
      ensures audio == None && duration == 0.0 && !playing && startTime == None
      ensures !stopSet && !threadStarted && written == [] && delivered == []
    {
      this.sampleRate := sampleRate;
      this.hasCallback := hasCallback;
      this.deviceAvailable := deviceAvailable;
      audio := None;
      duration := 0.0;
      playing := false;
      startTime := None;
      stopSet := false;
      threadStarted := false;
      written := [];
      delivered := [];
    }

    /** `load_audio`: the buffer is stored whatever its rate (a mismatch is
        only logged), then the duration is samples / rate; a zero rate
        raises ZeroDivisionError after the buffer was stored. */
    method LoadAudio(data: seq<int>, rate: int) returns (raised: Option<string>)
      modifies this
      ensures audio == Some(data)
      ensures rate == 0 ==> raised == Some("division by zero") && duration == old(duration)
      ensures rate != 0 ==> raised == None && duration == |data| as real / rate as real
      ensures playing == old(playing) && startTime == old(startTime) && stopSet == old(stopSet)
      ensures threadStarted == old(threadStarted)
      ensures written == old(written) && delivered == old(delivered)
    {
      audio := Some(data);
      if rate == 0 {
        return Some("division by zero");
      }
      duration := |data| as real / rate as real;
      raised := None;
    }

    /** `get_current_time` at clock reading `now`. */
    function CurrentTime(now: real): (t: real)
      reads this
      ensures !playing ==> t == 0.0
    {
      if !playing || startTime.None? then 0.0 else now - startTime.value
    }

    /** While playing from a start, the playback time advances with the
        clock and is zero at the start. */
    lemma CurrentTimeAdvances(a: real, b: real)
      requires playing && startTime.Some?
      ensures CurrentTime(b) - CurrentTime(a) == b - a
      ensures CurrentTime(startTime.value) == 0.0
    {
    }

    /** `_playback_loop` run to its end at clock reading `now`: each chunk
        goes, padded to a full block, to the callback (if any) and to the
        stream, until the buffer is exhausted or the stop event is seen;
        the `finally` clause clears the playing flag. */
    method PlaybackLoop(now: real, stopAfter: Option<nat>)
      requires sampleRate >= 20
      modifies this
      ensures old(audio).None? ==> unchanged(this)
      ensures old(audio).Some? ==>
        var cs := Chunks(old(audio).value, ChunkSize(sampleRate));
        var k := Sent(|cs|, old(stopSet), stopAfter);
        && written == old(written) + PadAll(cs[..k], ChunkSize(sampleRate))
        && delivered == old(delivered) + (if hasCallback then PadAll(cs[..k], ChunkSize(sampleRate)) else [])
        && stopSet == StoppedAfter(|cs|, old(stopSet), stopAfter)
        && !playing && startTime == Some(now)
      ensures audio == old(audio) && duration == old(duration) && threadStarted == old(threadStarted)
    {
      if audio.None? {
        return;
      }
      var data := audio.value;
      startTime := Some(now);
      ChunkSizeTwentieth(sampleRate);
      var c := ChunkSize(sampleRate);
      var blocks, stopSeen := StreamBlocks(data, c, stopSet, stopAfter);
      if hasCallback {
        delivered := delivered + blocks;
      }
      written := written + blocks;
      stopSet := stopSeen;
      playing := false;
    }

    /** `_simulate_playback`: as the playback loop, but the chunks go
        unpadded to the callback only, the playing flag is raised for the
        duration of the loop, and the stop event is NOT cleared first. */
    method SimulatePlayback(now: real, stopAfter: Option<nat>)
      requires sampleRate >= 20
      modifies this
      ensures old(audio).None? ==> unchanged(this)
      ensures old(audio).Some? ==>
        var cs := Chunks(old(audio).value, ChunkSize(sampleRate));
        var k := Sent(|cs|, old(stopSet), stopAfter);
        && delivered == old(delivered) + (if hasCallback then cs[..k] else [])
        && stopSet == StoppedAfter(|cs|, old(stopSet), stopAfter)
        && !playing && startTime == Some(now)
      ensures audio == old(audio) && duration == old(duration) && threadStarted == old(threadStarted)
      ensures written == old(written)
    {
      if audio.None? {
        return;
      }
      var data := audio.value;
      startTime := Some(now);
      playing := true;
      ChunkSizeTwentieth(sampleRate);
      var c := ChunkSize(sampleRate);
      var chunks, stopSeen := SimulatedChunks(data, c, stopSet, stopAfter);
      if hasCallback {
        delivered := delivered + chunks;
      }
      stopSet := stopSeen;
      playing := false;
    }

    /** `play`. Without audio nothing happens. Without sounddevice the
        playback is simulated in the calling thread; this model clears the
        stop event first, as the real path does. With a device, a play
        while playing is ignored; otherwise the flag is raised, the event
        cleared, and the loop either runs here (blocking) or in a new
        thread, whose run is a later `PlaybackLoop` call. */
    method Play(blocking: bool, now: real, stopAfter: Option<nat>)
      requires sampleRate >= 20
      modifies this
      ensures old(audio).None? ==> unchanged(this)
      ensures old(audio).Some? && !deviceAvailable ==>
        var cs := Chunks(old(audio).value, ChunkSize(sampleRate));
        && delivered == old(delivered) + (if hasCallback then cs[..Sent(|cs|, false, stopAfter)] else [])
        && written == old(written)
        && stopSet == StoppedAfter(|cs|, false, stopAfter)
        && !playing && startTime == Some(now) && threadStarted == old(threadStarted)
      ensures old(audio).Some? && deviceAvailable && old(playing) ==> unchanged(this)
      ensures old(audio).Some? && deviceAvailable && !old(playing) && blocking ==>
        var cs := Chunks(old(audio).value, ChunkSize(sampleRate));
        var k := Sent(|cs|, false, stopAfter);
        && written == old(written) + PadAll(cs[..k], ChunkSize(sampleRate))
        && delivered == old(delivered) + (if hasCallback then PadAll(cs[..k], ChunkSize(sampleRate)) else [])
        && stopSet == StoppedAfter(|cs|, false, stopAfter)
        && !playing && startTime == Some(now) && threadStarted == old(threadStarted)
      ensures old(audio).Some? && deviceAvailable && !old(playing) && !blocking ==>
        && playing && !stopSet && threadStarted
        && written == old(written) && delivered == old(delivered) && startTime == old(startTime)
      ensures audio == old(audio) && duration == old(duration)
    {
      if audio.None? {
        return;
      }
      if !deviceAvailable {
        stopSet := false;
        SimulatePlayback(now, stopAfter);
        return;
      }
      if playing {
        return;
      }
      playing := true;
      stopSet := false;
      if blocking {
        PlaybackLoop(now, stopAfter);
      } else {
        threadStarted := true;
      }
    }

    /** `stop`: ignored when not playing; otherwise sets the stop event and
        clears the playing flag, after which the playback time reads 0. */
    method Stop()
      modifies this
      ensures !old(playing) ==> unchanged(this)
      ensures old(playing) ==> stopSet && !playing
      ensures forall now :: CurrentTime(now) == 0.0
      ensures audio == old(audio) && duration == old(duration) && startTime == old(startTime)
      ensures threadStarted == old(threadStarted)
      ensures written == old(written) && delivered == old(delivered)
    {
      if !playing {
        return;
      }
      stopSet := true;
      playing := false;
    }
  }

  /** Simulated playback, as written, never clears the stop event. Take a
      buffer of three chunks: a simulated play stopped after its first
      chunk leaves the event set, so replaying it as written delivers
      nothing, where clearing the event first delivers the whole buffer. */
  lemma StaleStopSilencesReplay(a: seq<int>, c: nat)
    requires c > 0 && 2 * c < |a| <= 3 * c
    ensures var cs := Chunks(a, c);
      && |cs| == 3
      && StoppedAfter(|cs|, false, Some(1))
      && cs[..Sent(|cs|, StoppedAfter(|cs|, false, Some(1)), None)] == []
      && Flatten(cs[..Sent(|cs|, false, None)]) == a
  {
    var cs := Chunks(a, c);
    ChunksCount(a, c);
    var n := |cs|;
    assert n == 3;
    ChunksFlatten(a, c);
    assert cs[..3] == cs;
  }

  /** With the event cleared first, an unstopped simulated play hands the
      callback the whole buffer, every sample once and in order. */
  lemma SimulatedPlayDeliversAll(a: seq<int>, c: nat, stopAfter: Option<nat>)
    requires c > 0
    requires stopAfter.None? || stopAfter.value >= |Chunks(a, c)|
    ensures Flatten(Chunks(a, c)[..Sent(|Chunks(a, c)|, false, stopAfter)]) == a
  {
    ChunksFlatten(a, c);
    assert Chunks(a, c)[..|Chunks(a, c)|] == Chunks(a, c);
  }
}
