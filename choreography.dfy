/** Choreography planning and dispatch (src/common/reachy/choreography.py):
    the event list of ChoreographyEngine, the three planning styles of
    `generate_from_tts`, the start/stop guards, the execution loop run over
    explicit clock readings, and the routing test of `_execute_gesture`. */
module Choreography {
  import opened Util
  import opened Sorting
  import opened TtsEngine

  datatype GestureType =
    | Sway | LeanForward | DramaticPause | BigFinish | BashfulBow | Nod
    | WaveAntennas | ExpressHappy | ExpressExcited

  /** A gesture parameter: a number or a boolean (`synchronized=True`). */
  datatype Param = Num(r: real) | Flag(b: bool)

  /** ChoreographyEvent. */
  datatype Event = Event(
    timestamp: real, gesture: GestureType, params: map<string, Param>, builtinMove: Option<string>)

  /** The sort key of `self._events.sort`. */
  function TimestampOf(e: Event): real { e.timestamp }

  // ---------------------------------------------------------------------
  // _execute_gesture

  /** Python's `params.get("magnitude", 1.0) == 0.0`: a missing magnitude
      counts as 1.0, and `False == 0.0` holds in Python. */
  predicate MagnitudeIsZero(params: map<string, Param>)
  {
    "magnitude" in params && (params["magnitude"] == Num(0.0) || params["magnitude"] == Flag(false))
  }

  /** Where `_execute_gesture` sends an event: to the built-in move player,
      or to a SafeMotionController method, with or without the event's
      parameters. */
  datatype Route = BuiltinMove(name: string) | Controller(target: string, withParams: bool)

  function RouteOf(e: Event): (r: Route)
    ensures r.BuiltinMove? <==>
      e.builtinMove.Some? && |e.builtinMove.value| > 0 && MagnitudeIsZero(e.params)
    ensures r.BuiltinMove? ==> r.name == e.builtinMove.value
    ensures r.Controller? && r.withParams <==>
      r.Controller? && e.gesture in {Sway, LeanForward, DramaticPause, Nod, WaveAntennas}
  {
    if e.builtinMove.Some? && |e.builtinMove.value| > 0 && MagnitudeIsZero(e.params) then
      BuiltinMove(e.builtinMove.value)
    else
      match e.gesture
      case Sway => Controller("singing_sway", true)
      case LeanForward => Controller("singing_lean_forward", true)
      case DramaticPause => Controller("singing_dramatic_pause", true)
      case BigFinish => Controller("singing_big_finish", false)
      case BashfulBow => Controller("singing_bashful_bow", false)
      case Nod => Controller("nod_yes", true)
      case WaveAntennas => Controller("wave_antennas", true)
      case ExpressHappy => Controller("express_happy", false)
      case ExpressExcited => Controller("express_excited", false)
  }

  // ---------------------------------------------------------------------
  // The plan of generate_from_tts

  /** The markers of one kind, in order (the list comprehensions over
      `timing_markers`). */
  function OfKind(ms: seq<Marker>, kind: MarkerKind): (r: seq<Marker>)
    ensures |r| <= |ms|
    ensures forall m :: m in r <==> m in ms && m.kind == kind
  {
    if |ms| == 0 then []
    else (if ms[0].kind == kind then [ms[0]] else []) + OfKind(ms[1..], kind)
  }

  /** The NOD on a beat: count 1, speed 1.5, at the beat's start. */
  function NodAt(beat: Marker): Event
  {
    Event(beat.start, Nod, map["count" := Num(1.0), "speed" := Num(1.5)], None)
  }

  function NodEvents(beats: seq<Marker>): (es: seq<Event>)
    ensures |es| == |beats|
  {
    if |beats| == 0 then [] else NodEvents(beats[..|beats| - 1]) + [NodAt(beats[|beats| - 1])]
  }

  /** Wave `i` of the energetic style: both antennas twice at speed 1.5,
      at 3i + 1. */
  function WaveAt(i: int): Event
  {
    Event(i as real * 3.0 + 1.0, WaveAntennas,
          map["count" := Num(2.0), "speed" := Num(1.5), "synchronized" := Flag(true)], None)
  }

  /** The waves for `i < n` that come before duration - 1. */
  function WaveEvents(duration: real, n: int): seq<Event>
    decreases n
  {
    if n <= 0 then []
    else
      WaveEvents(duration, n - 1)
      + (if WaveAt(n - 1).timestamp < duration - 1.0 then [WaveAt(n - 1)] else [])
  }

  /** The closing BIG_FINISH half a second before the end, when the
      performance lasts more than 2 s. */
  function Finish(duration: real): seq<Event>
  {
    if duration > 2.0 then [Event(duration - 0.5, BigFinish, map[], None)] else []
  }

  /** A word marker that starts a phrase: after 0 and within half a second
      past a multiple of 3 s (Python's float `%`). */
  predicate IsPhraseBreak(m: Marker)
  {
    m.start > 0.0 && FMod(m.start, 3.0) < 0.5
  }

  function PhraseBreaks(words: seq<Marker>): (r: seq<Marker>)
    ensures |r| <= |words|
    ensures forall m :: m in r <==> m in words && IsPhraseBreak(m)
  {
    if |words| == 0 then []
    else (if IsPhraseBreak(words[0]) then [words[0]] else []) + PhraseBreaks(words[1..])
  }

  /** `phrase_breaks[:3]`. */
  function FirstThree(ms: seq<Marker>): (r: seq<Marker>)
    ensures |r| == if |ms| <= 3 then |ms| else 3
    ensures r == ms[..|r|]
  {
    if |ms| <= 3 then ms else ms[..3]
  }

  /** The DRAMATIC_PAUSE of 0.8 s that starts 0.3 s before a phrase break. */
  function PauseAt(m: Marker): Event
  {
    Event(m.start - 0.3, DramaticPause, map["duration" := Num(0.8)], None)
  }

  /** The pauses before the given markers that start after 1 s. */
  function PauseEvents(ms: seq<Marker>): (es: seq<Event>)
    ensures |es| <= |ms|
  {
    if |ms| == 0 then []
    else
      var m := ms[|ms| - 1];
      PauseEvents(ms[..|ms| - 1]) + (if m.start > 1.0 then [PauseAt(m)] else [])
  }

  /** The climax of the dramatic style, at the midpoint, when the
      performance lasts more than 4 s. */
  function Lean(duration: real): seq<Event>
  {
    if duration > 4.0 then [Event(duration / 2.0, LeanForward, map["duration" := Num(1.2), "intensity" := Num(0.9)], None)]
    else []
  }

  /** The number of dances: `min(3, int(duration / 10))`. */
  function DanceCount(duration: real): int
  {
    if Trunc(duration / 10.0) <= 3 then Trunc(duration / 10.0) else 3
  }

  /** The built-in dance for dance `i`: dance1, dance2, dance3 in turn. */
  function DanceMove(i: nat): string
  {
    ["dance1", "dance2", "dance3"][i % 3]
  }

  /** Dance `i` of the default style: a SWAY at 10i + 2 with magnitude 0
      that names a built-in dance. */
  function DanceAt(i: nat): Event
  {
    Event(i as real * 10.0 + 2.0, Sway, map["duration" := Num(2.5), "magnitude" := Num(0.0)], Some(DanceMove(i)))
  }

  /** The dances for `i < n` that come before duration - 3. */
  function DanceEvents(duration: real, n: int): seq<Event>
    decreases n
  {
    if n <= 0 then []
    else
      DanceEvents(duration, n - 1)
      + (if DanceAt(n - 1).timestamp < duration - 3.0 then [DanceAt(n - 1)] else [])
  }

  /** The opening EXPRESS_HAPPY and the closing BASHFUL_BOW of the default
      style, when the performance lasts more than 2 s. */
  function Happy(duration: real): seq<Event>
  {
    if duration > 2.0 then [Event(0.5, ExpressHappy, map[], None)] else []
  }

  function Bow(duration: real): seq<Event>
  {
    if duration > 2.0 then [Event(duration - 1.0, BashfulBow, map[], None)] else []
  }

  /** The events `generate_from_tts` adds, in the order it adds them. */
  function Plan(result: TtsResult, style: string): seq<Event>
  {
    var d := result.duration;
    if style == "energetic" then
      NodEvents(OfKind(result.markers, Beat)) + WaveEvents(d, Trunc(d / 3.0)) + Finish(d)
    else if style == "dramatic" then
      PauseEvents(FirstThree(PhraseBreaks(OfKind(result.markers, Word)))) + Lean(d) + Finish(d)
    else
      Happy(d) + DanceEvents(d, DanceCount(d)) + Bow(d)
  }

  // ---------------------------------------------------------------------
  // The execution loop

  /** What one pass of the execution loop observes: the clock, whether the
      stop flag is set when the loop condition is checked, and whether it
      gets set during the wait for a future event. */
  datatype Tick = Tick(now: real, stopSet: bool, stopDuringWait: bool)

  /** A gesture dispatch: the event, the elapsed time at which it fired and
      the pass of the loop that fired it. */
  datatype Dispatch = Dispatch(event: Event, elapsed: real, pass: nat)

  /** How a run of the loop ends: the dispatches, the number of passes
      that ran, and whether the loop ended because it saw the stop flag. */
  datatype RunOutcome = RunOutcome(log: seq<Dispatch>, passes: nat, stopped: bool)

  /** The run of the loop from pass k with the events before `index`
      already fired, pass by pass: the loop stops at a pass that sees the
      stop flag or when every event fired; an event that is due fires at
      once and the next pass begins; otherwise the pass waits, and ends
      the loop when the stop flag interrupts the wait. */
  function Replay(events: seq<Event>, start: real, ticks: seq<Tick>, index: nat, k: nat): (o: RunOutcome)
    requires index <= |events| && k <= |ticks|
    ensures k <= o.passes <= |ticks| && |o.log| <= |events| - index
    decreases |ticks| - k
  {
    if k == |ticks| then RunOutcome([], k, false)
    else if ticks[k].stopSet then RunOutcome([], k, true)
    else if index == |events| then RunOutcome([], k, false)
    else
      var elapsed := ticks[k].now - start;
      if events[index].timestamp - elapsed > 0.0 then
        if ticks[k].stopDuringWait then RunOutcome([], k, true)
        else Replay(events, start, ticks, index, k + 1)
      else
        var rest := Replay(events, start, ticks, index + 1, k + 1);
        RunOutcome([Dispatch(events[index], elapsed, k)] + rest.log, rest.passes, rest.stopped)
  }

  /** `_execution_loop` run over the given passes (one clock reading and
      stop-flag state each): the run Replay describes. RunDispatches and
      RunEnds spell out what that run is. A gesture that raises is logged and skipped
      over, so dispatch does not depend on it. */
  method RunEvents(events: seq<Event>, start: real, ticks: seq<Tick>)
    returns (log: seq<Dispatch>, passes: nat, stopped: bool)
    ensures RunOutcome(log, passes, stopped) == Replay(events, start, ticks, 0, 0)
  {
    log := [];
    var index := 0;
    var k := 0;
    while k < |ticks| && !ticks[k].stopSet && index < |events|
      invariant 0 <= k <= |ticks| && 0 <= index <= |events|
      invariant var rest := Replay(events, start, ticks, index, k);
        Replay(events, start, ticks, 0, 0) == RunOutcome(log + rest.log, rest.passes, rest.stopped)
      decreases |ticks| - k
    {
      var event := events[index];
      var elapsed := ticks[k].now - start;
      if event.timestamp - elapsed > 0.0 {
        if ticks[k].stopDuringWait {
          assert log + [] == log;
          passes, stopped := k, true;
          return;
        }
        k := k + 1;
        continue;
      }
      ghost var rest := Replay(events, start, ticks, index + 1, k + 1);
      assert log + ([Dispatch(event, elapsed, k)] + rest.log) == (log + [Dispatch(event, elapsed, k)]) + rest.log;
      log := log + [Dispatch(event, elapsed, k)];
      index := index + 1;
      k := k + 1;
    }
    assert log + [] == log;
    passes, stopped := k, k < |ticks| && ticks[k].stopSet;
  }

  /** The run of the loop from the first pass: events fire in list order,
      each at most once, in increasing passes, never before their
      timestamp. */
  lemma RunDispatches(events: seq<Event>, start: real, ticks: seq<Tick>)
    ensures var o := Replay(events, start, ticks, 0, 0);
      && |o.log| <= |events| && o.passes <= |ticks|
      && (forall j :: 0 <= j < |o.log| ==>
           && o.log[j].event == events[j]
           && o.log[j].pass < o.passes
           && o.log[j].elapsed == ticks[o.log[j].pass].now - start
           && o.log[j].elapsed >= events[j].timestamp)
      && (forall i, j :: 0 <= i < j < |o.log| ==> o.log[i].pass < o.log[j].pass)
  {
    var o := Replay(events, start, ticks, 0, 0);
    ReplayLog(events, start, ticks, 0, 0, o);
    forall j | 0 <= j < |o.log| ensures o.log[j].event == events[j] && o.log[j].elapsed >= events[j].timestamp {
      assert 0 + j == j;
    }
  }

  /** The run of the loop from the first pass sees no stop flag before its
      last pass; it ended because of the stop flag exactly when its last
      pass saw it set, or saw it interrupt the wait for an event not yet
      due; otherwise every event fired or the passes ran out. */
  lemma RunEnds(events: seq<Event>, start: real, ticks: seq<Tick>)
    ensures var o := Replay(events, start, ticks, 0, 0);
      && (forall q :: 0 <= q < o.passes ==> !ticks[q].stopSet)
      && (o.stopped <==>
           o.passes < |ticks| &&
           (|| ticks[o.passes].stopSet
            || (|o.log| < |events| && ticks[o.passes].stopDuringWait
                && events[|o.log|].timestamp > ticks[o.passes].now - start)))
      && (|o.log| == |events| || o.passes == |ticks| || o.stopped)
  {
    ReplayEnd(events, start, ticks, 0, 0);
  }

  /** Every dispatch of a run from pass k fires the next event in list
      order, in a later pass than the one before, at the elapsed time its
      pass read, and never before the event's timestamp. */
  lemma {:induction false} ReplayLog(events: seq<Event>, start: real, ticks: seq<Tick>, index: nat, k: nat, o: RunOutcome)
    requires index <= |events| && k <= |ticks|
    requires o == Replay(events, start, ticks, index, k)
    ensures forall j :: 0 <= j < |o.log| ==>
      && o.log[j].event == events[index + j]
      && k <= o.log[j].pass < o.passes
      && o.log[j].elapsed == ticks[o.log[j].pass].now - start
      && o.log[j].elapsed >= events[index + j].timestamp
    ensures forall i, j :: 0 <= i < j < |o.log| ==> o.log[i].pass < o.log[j].pass
    decreases |ticks| - k
  {
    if k < |ticks| && !ticks[k].stopSet && index < |events| {
      var elapsed := ticks[k].now - start;
      if events[index].timestamp - elapsed > 0.0 {
        if !ticks[k].stopDuringWait {
          ReplayLog(events, start, ticks, index, k + 1, o);
        }
      } else {
        var rest := Replay(events, start, ticks, index + 1, k + 1);
        ReplayLog(events, start, ticks, index + 1, k + 1, rest);
        assert o.log == [Dispatch(events[index], elapsed, k)] + rest.log && o.passes == rest.passes;
        forall j | 0 <= j < |o.log|
          ensures && o.log[j].event == events[index + j]
                  && k <= o.log[j].pass < o.passes
                  && o.log[j].elapsed == ticks[o.log[j].pass].now - start
                  && o.log[j].elapsed >= events[index + j].timestamp
        {
          if j > 0 {
            assert o.log[j] == rest.log[j - 1] && (index + 1) + (j - 1) == index + j;
          }
        }
        forall i, j | 0 <= i < j < |o.log| ensures o.log[i].pass < o.log[j].pass {
          assert o.log[j] == rest.log[j - 1];
          if i > 0 {
            assert o.log[i] == rest.log[i - 1];
          }
        }
      }
    }
  }

  /** A run from pass k sees no stop flag before its last pass; it ended
      because of the stop flag exactly when its last pass saw it set, or
      saw it interrupt the wait for an event not yet due; otherwise every
      event fired or the passes ran out. */
  lemma {:induction false} ReplayEnd(events: seq<Event>, start: real, ticks: seq<Tick>, index: nat, k: nat)
    requires index <= |events| && k <= |ticks|
    ensures var o := Replay(events, start, ticks, index, k);
      && (forall q :: k <= q < o.passes ==> !ticks[q].stopSet)
      && (o.stopped <==>
           o.passes < |ticks| &&
           (|| ticks[o.passes].stopSet
            || (index + |o.log| < |events| && ticks[o.passes].stopDuringWait
                && events[index + |o.log|].timestamp > ticks[o.passes].now - start)))
      && (index + |o.log| == |events| || o.passes == |ticks| || o.stopped)
    decreases |ticks| - k
  {
    if k < |ticks| && !ticks[k].stopSet && index < |events| {
      var elapsed := ticks[k].now - start;
      if events[index].timestamp - elapsed > 0.0 {
        if !ticks[k].stopDuringWait {
          ReplayEnd(events, start, ticks, index, k + 1);
        }
      } else {
        ReplayEnd(events, start, ticks, index + 1, k + 1);
        var rest := Replay(events, start, ticks, index + 1, k + 1);
        assert index + |[Dispatch(events[index], elapsed, k)] + rest.log| == (index + 1) + |rest.log|;
      }
    }
  }

  /** With no stop, once the clock reads at least `latest` past the start
      from pass m on, and every event is due by `latest`, each of the
      |events| passes after m fires one event: every event fires. */
  lemma ReplayAllFire(events: seq<Event>, start: real, ticks: seq<Tick>, m: nat, latest: real)
    requires forall q :: 0 <= q < |ticks| ==> !ticks[q].stopSet && !ticks[q].stopDuringWait
    requires forall e :: 0 <= e < |events| ==> events[e].timestamp <= latest
    requires forall q :: m <= q < |ticks| ==> ticks[q].now - start >= latest
    requires |ticks| >= m + |events|
    ensures var o := Replay(events, start, ticks, 0, 0);
      |o.log| == |events| && !o.stopped
  {
    ReplayCompletes(events, start, ticks, 0, 0, m, latest);
  }

  lemma {:induction false} ReplayCompletes(events: seq<Event>, start: real, ticks: seq<Tick>,
                                           index: nat, k: nat, m: nat, latest: real)
    requires index <= |events| && k <= |ticks|
    requires forall q :: 0 <= q < |ticks| ==> !ticks[q].stopSet && !ticks[q].stopDuringWait
    requires forall e :: 0 <= e < |events| ==> events[e].timestamp <= latest
    requires forall q :: m <= q < |ticks| ==> ticks[q].now - start >= latest
    requires |ticks| - (if k >= m then k else m) >= |events| - index
    ensures var o := Replay(events, start, ticks, index, k);
      |o.log| == |events| - index && !o.stopped
    decreases |ticks| - k
  {
    if index < |events| {
      if events[index].timestamp - (ticks[k].now - start) > 0.0 {
        assert k < m;
        ReplayCompletes(events, start, ticks, index, k + 1, m, latest);
      } else {
        ReplayCompletes(events, start, ticks, index + 1, k + 1, m, latest);
      }
    }
  }

  // ---------------------------------------------------------------------
  // The engine

  class ChoreographyEngine {
    var events: seq<Event>
    /** A run has been started (`self._thread is not None`). */
    var started: bool
    /** The run is still going (`self._thread.is_alive()`). */
    var running: bool
    /** `self._stop_event`. */
    var stopRequested: bool
    var startTime: Option<real>

    constructor()
      ensures events == [] && !started && !running && !stopRequested && startTime == None
    {
      events := [];
      started := false;
      running := false;
      stopRequested := false;
      startTime := None;
    }

    /** `add_event`: appends one event and changes nothing else. */
    method AddEvent(timestamp: real, gesture: GestureType, builtinMove: Option<string>, params: map<string, Param>)
      modifies this
      ensures events == old(events) + [Event(timestamp, gesture, params, builtinMove)]
      ensures started == old(started) && running == old(running)
      ensures stopRequested == old(stopRequested) && startTime == old(startTime)
    {
      events := events + [Event(timestamp, gesture, params, builtinMove)];
    }

    /** `clear_events`. */
    method ClearEvents()
      modifies this
      ensures events == []
      ensures started == old(started) && running == old(running)
      ensures stopRequested == old(stopRequested) && startTime == old(startTime)
    {
      events := [];
    }

    /** `generate_from_tts`: the earlier events are discarded, the plan of
        the style is added, and the list is sorted by timestamp (stably). */
    method GenerateFromTts(result: TtsResult, style: string)
      modifies this
      ensures events == SortBy(Plan(result, style), TimestampOf)
      ensures started == old(started) && running == old(running)
      ensures stopRequested == old(stopRequested) && startTime == old(startTime)
    {
      ClearEvents();
      AddPlan(result, style);
      assert [] + Plan(result, style) == Plan(result, style);
      events := SortBy(events, TimestampOf);
    }

    /** The events of the style, in the order `generate_from_tts` adds them. */
    method AddPlan(result: TtsResult, style: string)
      modifies this
      ensures events == old(events) + Plan(result, style)
      ensures started == old(started) && running == old(running)
      ensures stopRequested == old(stopRequested) && startTime == old(startTime)
    {
      var d := result.duration;
      ghost var added;
      if style == "energetic" {
        added := AddEnergetic(OfKind(result.markers, Beat), d);
      } else if style == "dramatic" {
        added := AddDramatic(OfKind(result.markers, Word), d);
      } else {
        added := AddDefault(d);
      }
      assert added == Plan(result, style);
    }

    /** The events of the energetic style. */
    method AddEnergetic(beats: seq<Marker>, d: real) returns (ghost added: seq<Event>)
      modifies this
      ensures added == NodEvents(beats) + WaveEvents(d, Trunc(d / 3.0)) + Finish(d)
      ensures events == old(events) + added
      ensures started == old(started) && running == old(running)
      ensures stopRequested == old(stopRequested) && startTime == old(startTime)
    {
      AddNods(beats);
      AddWaves(d);
      if d > 2.0 {
        AddEvent(d - 0.5, BigFinish, None, map[]);
      }
      added := NodEvents(beats) + WaveEvents(d, Trunc(d / 3.0)) + Finish(d);
    }

    /** The events of the dramatic style. */
    method AddDramatic(words: seq<Marker>, d: real) returns (ghost added: seq<Event>)
      modifies this
      ensures added == PauseEvents(FirstThree(PhraseBreaks(words))) + Lean(d) + Finish(d)
      ensures events == old(events) + added
      ensures started == old(started) && running == old(running)
      ensures stopRequested == old(stopRequested) && startTime == old(startTime)
    {
      var phraseBreaks := PhraseBreaks(words);
      AddPauses(FirstThree(phraseBreaks));
      if d > 4.0 {
        AddEvent(d / 2.0, LeanForward, None, map["duration" := Num(1.2), "intensity" := Num(0.9)]);
      }
      if d > 2.0 {
        AddEvent(d - 0.5, BigFinish, None, map[]);
      }
      added := PauseEvents(FirstThree(phraseBreaks)) + Lean(d) + Finish(d);
    }

    /** The events of the default style. */
    method AddDefault(d: real) returns (ghost added: seq<Event>)
      modifies this
      ensures added == Happy(d) + DanceEvents(d, DanceCount(d)) + Bow(d)
      ensures events == old(events) + added
      ensures started == old(started) && running == old(running)
      ensures stopRequested == old(stopRequested) && startTime == old(startTime)
    {
      if d > 2.0 {
        AddEvent(0.5, ExpressHappy, None, map[]);
      }
      AddDances(d);
      if d > 2.0 {
        AddEvent(d - 1.0, BashfulBow, None, map[]);
      }
      added := Happy(d) + DanceEvents(d, DanceCount(d)) + Bow(d);
    }

    method AddNods(beats: seq<Marker>)
      modifies this
      ensures events == old(events) + NodEvents(beats)
      ensures started == old(started) && running == old(running)
      ensures stopRequested == old(stopRequested) && startTime == old(startTime)
    {
      var i := 0;
      while i < |beats|
        invariant 0 <= i <= |beats|
        invariant events == old(events) + NodEvents(beats[..i])
        invariant started == old(started) && running == old(running)
        invariant stopRequested == old(stopRequested) && startTime == old(startTime)
      {
        assert beats[..i + 1][..i] == beats[..i];
        AddEvent(beats[i].start, Nod, None, map["count" := Num(1.0), "speed" := Num(1.5)]);
        i := i + 1;
      }
      assert beats[..|beats|] == beats;
    }

    method AddWaves(duration: real)
      modifies this
      ensures events == old(events) + WaveEvents(duration, Trunc(duration / 3.0))
      ensures started == old(started) && running == old(running)
      ensures stopRequested == old(stopRequested) && startTime == old(startTime)
    {
      var n := Trunc(duration / 3.0);
      var i := 0;
      while i < n
        invariant 0 <= i && (i <= n || i == 0)
        invariant events == old(events) + WaveEvents(duration, i)
        invariant started == old(started) && running == old(running)
        invariant stopRequested == old(stopRequested) && startTime == old(startTime)
      {
        var timestamp := i as real * 3.0 + 1.0;
        if timestamp < duration - 1.0 {
          AddEvent(timestamp, WaveAntennas, None,
                   map["count" := Num(2.0), "speed" := Num(1.5), "synchronized" := Flag(true)]);
        }
        i := i + 1;
      }
      assert WaveEvents(duration, i) == WaveEvents(duration, n);
    }

    method AddPauses(breaks: seq<Marker>)
      modifies this
      ensures events == old(events) + PauseEvents(breaks)
      ensures started == old(started) && running == old(running)
      ensures stopRequested == old(stopRequested) && startTime == old(startTime)
    {
      var i := 0;
      while i < |breaks|
        invariant 0 <= i <= |breaks|
        invariant events == old(events) + PauseEvents(breaks[..i])
        invariant started == old(started) && running == old(running)
        invariant stopRequested == old(stopRequested) && startTime == old(startTime)
      {
        assert breaks[..i + 1][..i] == breaks[..i];
        if breaks[i].start > 1.0 {
          AddEvent(breaks[i].start - 0.3, DramaticPause, None, map["duration" := Num(0.8)]);
        }
        i := i + 1;
      }
      assert breaks[..|breaks|] == breaks;
    }

    method AddDances(duration: real)
      modifies this
      ensures events == old(events) + DanceEvents(duration, DanceCount(duration))
      ensures started == old(started) && running == old(running)
      ensures stopRequested == old(stopRequested) && startTime == old(startTime)
    {
      var n := DanceCount(duration);
      var i := 0;
      while i < n
        invariant 0 <= i && (i <= n || i == 0)
        invariant events == old(events) + DanceEvents(duration, i)
        invariant started == old(started) && running == old(running)
        invariant stopRequested == old(stopRequested) && startTime == old(startTime)
      {
        var timestamp := i as real * 10.0 + 2.0;
        if timestamp < duration - 3.0 {
          AddEvent(timestamp, Sway, Some(DanceMove(i)), map["duration" := Num(2.5), "magnitude" := Num(0.0)]);
        }
        i := i + 1;
      }
      assert DanceEvents(duration, i) == DanceEvents(duration, n);
    }

    /** `start`: a no-op while a run is going; otherwise the stop flag is
        cleared and the start time is the given one, or the current time
        when none (or 0.0, which Python treats as false) is given. */
    method Start(requested: Option<real>, now: real)
      modifies this
      ensures old(running) ==>
        && events == old(events) && started == old(started) && running == old(running)
        && stopRequested == old(stopRequested) && startTime == old(startTime)
      ensures !old(running) ==>
        && events == old(events) && started && running && !stopRequested
        && startTime == Some(if requested.None? || requested.value == 0.0 then now else requested.value)
    {
      if running {
        return;
      }
      stopRequested := false;
      startTime := Some(if requested.None? || requested.value == 0.0 then now else requested.value);
      started := true;
      running := true;
    }

    /** `stop`: nothing when no run was ever started; otherwise the stop
        flag is set. Whether the run has ended when the two-second join
        returns depends on the thread, so `running` is left to the loop. */
    method Stop()
      modifies this
      ensures events == old(events) && started == old(started) && running == old(running)
      ensures startTime == old(startTime)
      ensures stopRequested == (old(stopRequested) || old(started))
    {
      if !started {
        return;
      }
      stopRequested := true;
    }

    /** The run of `_execution_loop` over the given passes: nothing fires
        without a start time or with the stop flag already set; otherwise the
        events fire as Replay says (and RunEvents spells out), and a stop
        the loop saw stays recorded. The run is over afterwards. */
    method ExecutionLoop(ticks: seq<Tick>) returns (log: seq<Dispatch>)
      modifies this
      ensures events == old(events) && started == old(started) && !running && startTime == old(startTime)
      ensures startTime.None? || old(stopRequested) ==> log == [] && stopRequested == old(stopRequested)
      ensures startTime.Some? && !old(stopRequested) ==>
        var o := Replay(events, startTime.value, ticks, 0, 0);
        log == o.log && stopRequested == o.stopped
      ensures |log| <= |events|
      ensures forall j :: 0 <= j < |log| ==> log[j].event == events[j]
      ensures startTime.Some? ==> forall j :: 0 <= j < |log| ==>
        log[j].pass < |ticks| &&
        log[j].elapsed == ticks[log[j].pass].now - startTime.value && log[j].elapsed >= events[j].timestamp
    {
      if startTime.None? || stopRequested {
        log := [];
      } else {
        var passes, stopped;
        log, passes, stopped := RunEvents(events, startTime.value, ticks);
        RunDispatches(events, startTime.value, ticks);
        stopRequested := stopped;
      }
      running := false;
    }
  }

  // ---------------------------------------------------------------------
  // Properties of the plan

  /** The number of events of one gesture type. */
  function CountOf(es: seq<Event>, g: GestureType): (c: nat)
    ensures c <= |es|
    ensures c == 0 <==> forall e :: e in es ==> e.gesture != g
  {
    if |es| == 0 then 0
    else
      var c := CountOf(es[..|es| - 1], g) + (if es[|es| - 1].gesture == g then 1 else 0);
      assert forall e :: e in es <==> e in es[..|es| - 1] || e == es[|es| - 1] by {
        assert es == es[..|es| - 1] + [es[|es| - 1]];
      }
      c
  }

  lemma {:induction false} CountOfAppend(a: seq<Event>, b: seq<Event>, g: GestureType)
    ensures CountOf(a + b, g) == CountOf(a, g) + CountOf(b, g)
    decreases |b|
  {
    if |b| == 0 {
      assert a + b == a;
    } else {
      assert (a + b)[..|a + b| - 1] == a + b[..|b| - 1];
      CountOfAppend(a, b[..|b| - 1], g);
    }
  }

  lemma CountOfSingle(e: Event, g: GestureType)
    ensures CountOf([e], g) == if e.gesture == g then 1 else 0
  {
    assert [e][..0] == [];
  }

  /** The NOD events: one per beat, at its start, in the beats' order. */
  lemma {:induction false} NodEventsAt(beats: seq<Marker>)
    ensures forall i :: 0 <= i < |beats| ==> NodEvents(beats)[i] == NodAt(beats[i])
    ensures CountOf(NodEvents(beats), Nod) == |beats|
    ensures forall e :: e in NodEvents(beats) ==> e.gesture == Nod
    decreases |beats|
  {
    if |beats| > 0 {
      var prefix, last := beats[..|beats| - 1], NodAt(beats[|beats| - 1]);
      var es, ep := NodEvents(beats), NodEvents(prefix);
      assert es == ep + [last];
      NodEventsAt(prefix);
      forall i | 0 <= i < |beats| ensures es[i] == NodAt(beats[i]) {
        if i < |prefix| {
          assert es[i] == ep[i] && prefix[i] == beats[i];
        }
      }
      CountOfAppend(ep, [last], Nod);
      CountOfSingle(last, Nod);
      forall e | e in es ensures e.gesture == Nod {
        if e !in ep {
          assert e == last;
        }
      }
    }
  }

  /** The waves are exactly the WaveAt(i), i < n, that come before
      duration - 1. */
  lemma {:induction false} WaveEventsMembers(duration: real, n: int)
    ensures forall e :: e in WaveEvents(duration, n) <==>
      exists i :: 0 <= i < n && WaveAt(i).timestamp < duration - 1.0 && e == WaveAt(i)
    decreases n
  {
    if n > 0 {
      WaveEventsMembers(duration, n - 1);
      forall e | e in WaveEvents(duration, n)
        ensures exists i :: 0 <= i < n && WaveAt(i).timestamp < duration - 1.0 && e == WaveAt(i)
      {
        if e !in WaveEvents(duration, n - 1) {
          assert e == WaveAt(n - 1);
        }
      }
    }
  }

  /** The pauses are exactly the PauseAt(m) of the given markers that start
      after 1 s. */
  lemma {:induction false} PauseEventsMembers(ms: seq<Marker>)
    ensures forall e :: e in PauseEvents(ms) <==> exists m :: m in ms && m.start > 1.0 && e == PauseAt(m)
    decreases |ms|
  {
    if |ms| > 0 {
      var prefix, last := ms[..|ms| - 1], ms[|ms| - 1];
      assert ms == prefix + [last];
      PauseEventsMembers(prefix);
      forall e | e in PauseEvents(ms)
        ensures exists m :: m in ms && m.start > 1.0 && e == PauseAt(m)
      {
        if e in PauseEvents(prefix) {
          var m :| m in prefix && m.start > 1.0 && e == PauseAt(m);
          assert m in ms;
        } else {
          assert e == PauseAt(last);
        }
      }
      forall m | m in ms && m.start > 1.0
        ensures PauseAt(m) in PauseEvents(ms)
      {
        if m in prefix {
          assert PauseAt(m) in PauseEvents(prefix);
        }
      }
    }
  }

  /** The dances are exactly the DanceAt(i), i < n, that come before
      duration - 3; there are at most n of them. */
  lemma {:induction false} DanceEventsMembers(duration: real, n: int)
    ensures forall e :: e in DanceEvents(duration, n) <==>
      exists i: nat :: i < n && DanceAt(i).timestamp < duration - 3.0 && e == DanceAt(i)
    ensures |DanceEvents(duration, n)| <= if n <= 0 then 0 else n
    decreases n
  {
    if n > 0 {
      DanceEventsMembers(duration, n - 1);
      forall e | e in DanceEvents(duration, n)
        ensures exists i: nat :: i < n && DanceAt(i).timestamp < duration - 3.0 && e == DanceAt(i)
      {
        if e !in DanceEvents(duration, n - 1) {
          assert e == DanceAt(n - 1);
        }
      }
    }
  }

  /** Every dance is played as the built-in move it names. */
  lemma DanceRoutesToBuiltin(i: nat)
    ensures RouteOf(DanceAt(i)) == BuiltinMove(DanceMove(i))
  {
    assert |DanceMove(i)| == 6;
  }

  lemma CountOf3(a: seq<Event>, b: seq<Event>, c: seq<Event>, g: GestureType)
    ensures CountOf(a + b + c, g) == CountOf(a, g) + CountOf(b, g) + CountOf(c, g)
  {
    CountOfAppend(a, b, g);
    CountOfAppend(a + b, c, g);
  }

  /** An event added under a condition counts once iff the condition holds
      and it has the gesture type. */
  lemma CountOfOptional(cond: bool, e: Event, g: GestureType)
    ensures CountOf(if cond then [e] else [], g) == if cond && e.gesture == g then 1 else 0
  {
    if cond {
      CountOfSingle(e, g);
    }
  }

  /** "energetic": exactly one NOD per beat marker, at its start; they come
      first, in the beats' order. */
  lemma EnergeticNods(result: TtsResult)
    ensures var es, beats := Plan(result, "energetic"), OfKind(result.markers, Beat);
      && CountOf(es, Nod) == |beats|
      && forall i :: 0 <= i < |beats| ==> es[i] == NodAt(beats[i])
  {
    var d, beats := result.duration, OfKind(result.markers, Beat);
    var nods, waves := NodEvents(beats), WaveEvents(d, Trunc(d / 3.0));
    var es := Plan(result, "energetic");
    assert es == nods + waves + Finish(d);
    NodEventsAt(beats);
    WaveEventsMembers(d, Trunc(d / 3.0));
    assert CountOf(waves, Nod) == 0;
    CountOf3(nods, waves, Finish(d), Nod);
    CountOfOptional(d > 2.0, Event(d - 0.5, BigFinish, map[], None), Nod);
  }

  /** "energetic": the waves are those at 3i + 1 for i < int(duration / 3)
      that come before duration - 1, and no others. */
  lemma EnergeticWaves(result: TtsResult)
    ensures var d, es := result.duration, Plan(result, "energetic");
      forall e :: e in es && e.gesture == WaveAntennas <==>
        exists i :: 0 <= i < Trunc(d / 3.0) && WaveAt(i).timestamp < d - 1.0 && e == WaveAt(i)
  {
    var d, beats := result.duration, OfKind(result.markers, Beat);
    var nods, waves := NodEvents(beats), WaveEvents(d, Trunc(d / 3.0));
    assert Plan(result, "energetic") == nods + waves + Finish(d);
    NodEventsAt(beats);
    WaveEventsMembers(d, Trunc(d / 3.0));
  }

  /** "energetic" and "dramatic": one BIG_FINISH, half a second before the
      end, iff the duration exceeds 2 s. */
  lemma FinishOnce(result: TtsResult, style: string)
    requires style == "energetic" || style == "dramatic"
    ensures var d, es := result.duration, Plan(result, style);
      && CountOf(es, BigFinish) == (if d > 2.0 then 1 else 0)
      && forall e :: e in es && e.gesture == BigFinish ==> e.timestamp == d - 0.5
  {
    var d := result.duration;
    if style == "energetic" {
      var beats := OfKind(result.markers, Beat);
      var nods, waves := NodEvents(beats), WaveEvents(d, Trunc(d / 3.0));
      assert Plan(result, style) == nods + waves + Finish(d);
      NodEventsAt(beats);
      WaveEventsMembers(d, Trunc(d / 3.0));
      assert CountOf(nods, BigFinish) == 0 && CountOf(waves, BigFinish) == 0;
      CountOf3(nods, waves, Finish(d), BigFinish);
    } else {
      var pauses := PauseEvents(FirstThree(PhraseBreaks(OfKind(result.markers, Word))));
      assert Plan(result, style) == pauses + Lean(d) + Finish(d);
      PauseEventsMembers(FirstThree(PhraseBreaks(OfKind(result.markers, Word))));
      assert CountOf(pauses, BigFinish) == 0;
      CountOf3(pauses, Lean(d), Finish(d), BigFinish);
      CountOfOptional(d > 4.0, Event(d / 2.0, LeanForward, map["duration" := Num(1.2), "intensity" := Num(0.9)], None), BigFinish);
    }
    CountOfOptional(d > 2.0, Event(d - 0.5, BigFinish, map[], None), BigFinish);
  }

  /** "dramatic": the pauses are at most three, taken from the first three
      phrase breaks of the word markers, and are exactly those 0.3 s before
      the ones that start after 1 s. */
  lemma DramaticPauses(result: TtsResult)
    ensures var es := Plan(result, "dramatic");
      var breaks := FirstThree(PhraseBreaks(OfKind(result.markers, Word)));
      && breaks == PhraseBreaks(OfKind(result.markers, Word))[..|breaks|]
      && (forall m :: m in breaks ==> m in result.markers && m.kind == Word && IsPhraseBreak(m))
      && CountOf(es, DramaticPause) <= 3
      && forall e :: e in es && e.gesture == DramaticPause <==>
           exists m :: m in breaks && m.start > 1.0 && e == PauseAt(m)
  {
    var d := result.duration;
    var phrases := PhraseBreaks(OfKind(result.markers, Word));
    var breaks := FirstThree(phrases);
    var pauses := PauseEvents(breaks);
    assert Plan(result, "dramatic") == pauses + Lean(d) + Finish(d);
    forall m | m in breaks ensures m in phrases {
      assert breaks == phrases[..|breaks|];
    }
    PauseEventsMembers(breaks);
    CountOf3(pauses, Lean(d), Finish(d), DramaticPause);
    CountOfOptional(d > 4.0, Event(d / 2.0, LeanForward, map["duration" := Num(1.2), "intensity" := Num(0.9)], None), DramaticPause);
    CountOfOptional(d > 2.0, Event(d - 0.5, BigFinish, map[], None), DramaticPause);
  }

  /** "dramatic": one LEAN_FORWARD, at the midpoint, iff the duration
      exceeds 4 s. */
  lemma DramaticLean(result: TtsResult)
    ensures var d, es := result.duration, Plan(result, "dramatic");
      && CountOf(es, LeanForward) == (if d > 4.0 then 1 else 0)
      && forall e :: e in es && e.gesture == LeanForward ==> e.timestamp == d / 2.0
  {
    var d := result.duration;
    var breaks := FirstThree(PhraseBreaks(OfKind(result.markers, Word)));
    var pauses := PauseEvents(breaks);
    assert Plan(result, "dramatic") == pauses + Lean(d) + Finish(d);
    PauseEventsMembers(breaks);
    assert CountOf(pauses, LeanForward) == 0;
    CountOf3(pauses, Lean(d), Finish(d), LeanForward);
    CountOfOptional(d > 4.0, Event(d / 2.0, LeanForward, map["duration" := Num(1.2), "intensity" := Num(0.9)], None), LeanForward);
    CountOfOptional(d > 2.0, Event(d - 0.5, BigFinish, map[], None), LeanForward);
  }

  /** Any other style: one EXPRESS_HAPPY at 0.5 s and one BASHFUL_BOW 1 s
      before the end, each iff the duration exceeds 2 s. */
  lemma DefaultGreeting(result: TtsResult, style: string)
    requires style != "energetic" && style != "dramatic"
    ensures var d, es := result.duration, Plan(result, style);
      && CountOf(es, ExpressHappy) == (if d > 2.0 then 1 else 0)
      && (forall e :: e in es && e.gesture == ExpressHappy ==> e.timestamp == 0.5)
      && CountOf(es, BashfulBow) == (if d > 2.0 then 1 else 0)
      && (forall e :: e in es && e.gesture == BashfulBow ==> e.timestamp == d - 1.0)
  {
    var d := result.duration;
    var dances := DanceEvents(d, DanceCount(d));
    assert Plan(result, style) == Happy(d) + dances + Bow(d);
    DanceEventsMembers(d, DanceCount(d));
    assert CountOf(dances, ExpressHappy) == 0 && CountOf(dances, BashfulBow) == 0;
    CountOf3(Happy(d), dances, Bow(d), ExpressHappy);
    CountOf3(Happy(d), dances, Bow(d), BashfulBow);
    CountOfOptional(d > 2.0, Event(0.5, ExpressHappy, map[], None), ExpressHappy);
    CountOfOptional(d > 2.0, Event(0.5, ExpressHappy, map[], None), BashfulBow);
    CountOfOptional(d > 2.0, Event(d - 1.0, BashfulBow, map[], None), ExpressHappy);
    CountOfOptional(d > 2.0, Event(d - 1.0, BashfulBow, map[], None), BashfulBow);
  }

  /** Any other style: the SWAY events are exactly the dances at 10i + 2 for
      i < min(3, int(duration / 10)) that come before duration - 3, and each
      is played as the built-in move it names. */
  lemma DefaultDances(result: TtsResult, style: string)
    requires style != "energetic" && style != "dramatic"
    ensures var d, es := result.duration, Plan(result, style);
      && (forall e :: e in es && e.gesture == Sway <==>
            exists i: nat :: i < DanceCount(d) && DanceAt(i).timestamp < d - 3.0 && e == DanceAt(i))
      && forall e :: e in es && e.gesture == Sway ==> RouteOf(e) == BuiltinMove(e.builtinMove.value)
  {
    var d := result.duration;
    var es := Plan(result, style);
    assert es == Happy(d) + DanceEvents(d, DanceCount(d)) + Bow(d);
    DanceEventsMembers(d, DanceCount(d));
    forall e | e in es && e.gesture == Sway ensures RouteOf(e) == BuiltinMove(e.builtinMove.value) {
      var i: nat :| i < DanceCount(d) && DanceAt(i).timestamp < d - 3.0 && e == DanceAt(i);
      DanceRoutesToBuiltin(i);
    }
  }

  /** Any other style: at most min(3, int(duration / 10)) SWAY events. */
  lemma DefaultDanceCount(result: TtsResult, style: string)
    requires style != "energetic" && style != "dramatic"
    ensures var d, es := result.duration, Plan(result, style);
      && CountOf(es, Sway) <= 3
      && CountOf(es, Sway) <= (if Trunc(d / 10.0) <= 0 then 0 else Trunc(d / 10.0))
  {
    var d := result.duration;
    var dances := DanceEvents(d, DanceCount(d));
    assert Plan(result, style) == Happy(d) + dances + Bow(d);
    DanceEventsMembers(d, DanceCount(d));
    CountOf3(Happy(d), dances, Bow(d), Sway);
    CountOfOptional(d > 2.0, Event(0.5, ExpressHappy, map[], None), Sway);
    CountOfOptional(d > 2.0, Event(d - 1.0, BashfulBow, map[], None), Sway);
  }

  /** The events after `generate_from_tts` are ordered by timestamp, are
      exactly the planned ones, and events with equal timestamps keep the
      order in which they were added. */
  lemma GeneratedEventsOrdered(result: TtsResult, style: string)
    ensures var es := SortBy(Plan(result, style), TimestampOf);
      && SortedBy(es, TimestampOf)
      && multiset(es) == multiset(Plan(result, style))
      && forall t :: WithKey(es, TimestampOf, t) == WithKey(Plan(result, style), TimestampOf, t)
  {
    SortByProperties(Plan(result, style), TimestampOf);
  }

  /** Routing examples: a named move without a zero magnitude goes to the
      controller; an empty move name never routes to the move player; a
      `False` magnitude counts as 0.0. */
  lemma RoutingExamples(t: real, g: GestureType)
    ensures RouteOf(Event(t, g, map[], Some("dance1"))) == RouteOf(Event(t, g, map[], None))
    ensures RouteOf(Event(t, g, map["magnitude" := Num(0.0)], Some("dance1"))) == BuiltinMove("dance1")
    ensures RouteOf(Event(t, g, map["magnitude" := Num(0.5)], Some("dance1"))).Controller?
    ensures RouteOf(Event(t, g, map["magnitude" := Num(0.0)], Some(""))).Controller?
    ensures RouteOf(Event(t, g, map["magnitude" := Flag(false)], Some("dance2"))) == BuiltinMove("dance2")
  {
  }
}
