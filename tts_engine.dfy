/** Speech and song timing markers (src/common/reachy/tts_engine.py): the
    word and beat markers of the mock engine, the note markers of the
    musical and emotion engines, and the engine factory. Audio samples are
    not modelled; a result carries its sample rate, duration and markers. */
module TtsEngine {
  import opened Util
  import opened Sorting
  import NotePlayer

  datatype MarkerKind = Word | Phoneme | Sentence | Beat

  /** TimingMarker: a span of the audio in seconds. */
  datatype Marker = Marker(text: string, start: real, end: real, kind: MarkerKind)

  /** TTSResult without the audio samples. */
  datatype TtsResult = TtsResult(sampleRate: nat, duration: real, markers: seq<Marker>)

  /** The sort key of `timing_markers.sort`. */
  function StartOf(m: Marker): real { m.start }

  // ---------------------------------------------------------------------
  // str.split()

  /** The number of white-space characters `s` starts with. */
  function LeadingSpaces(s: string): (n: nat)
    ensures n <= |s|
    ensures forall i :: 0 <= i < n ==> IsSpace(s[i])
    ensures n < |s| ==> !IsSpace(s[n])
  {
    if |s| == 0 || !IsSpace(s[0]) then 0 else 1 + LeadingSpaces(s[1..])
  }

  /** The length of the run of non-space characters `s` starts with. */
  function WordLength(s: string): (n: nat)
    ensures n <= |s|
    ensures forall i :: 0 <= i < n ==> !IsSpace(s[i])
    ensures n < |s| ==> IsSpace(s[n])
  {
    if |s| == 0 || IsSpace(s[0]) then 0 else 1 + WordLength(s[1..])
  }

  /** `text.split()`: the maximal runs of non-space characters, in order.
      Every word is non-empty and holds no white space. */
  function SplitWords(s: string): (ws: seq<string>)
    ensures forall i :: 0 <= i < |ws| ==> |ws[i]| > 0
    ensures forall i, j :: 0 <= i < |ws| && 0 <= j < |ws[i]| ==> !IsSpace(ws[i][j])
    decreases |s|
  {
    var a := LeadingSpaces(s);
    if a == |s| then []
    else
      var t := s[a..];
      var w := WordLength(t);
      [t[..w]] + SplitWords(t[w..])
  }

  /** The characters of `s` that are not white space, in order. */
  function NonSpace(s: string): string
  {
    if |s| == 0 then [] else (if IsSpace(s[0]) then [] else [s[0]]) + NonSpace(s[1..])
  }

  function Concat(ws: seq<string>): string
  {
    if |ws| == 0 then [] else ws[0] + Concat(ws[1..])
  }

  lemma {:induction false} NonSpaceAppend(a: string, b: string)
    ensures NonSpace(a + b) == NonSpace(a) + NonSpace(b)
    decreases |a|
  {
    if |a| == 0 {
      assert a + b == b;
    } else {
      assert (a + b)[1..] == a[1..] + b;
      NonSpaceAppend(a[1..], b);
    }
  }

  lemma {:induction false} NonSpaceOfSpaces(s: string)
    requires forall i :: 0 <= i < |s| ==> IsSpace(s[i])
    ensures NonSpace(s) == []
    decreases |s|
  {
    if |s| > 0 {
      NonSpaceOfSpaces(s[1..]);
    }
  }

  lemma {:induction false} NonSpaceOfWord(s: string)
    requires forall i :: 0 <= i < |s| ==> !IsSpace(s[i])
    ensures NonSpace(s) == s
    decreases |s|
  {
    if |s| > 0 {
      NonSpaceOfWord(s[1..]);
      assert s == [s[0]] + s[1..];
    }
  }

  /** Joining the words of `text.split()` gives back the text without its
      white space: no character is lost, reordered or invented. */
  lemma {:induction false} SplitWordsJoin(s: string)
    ensures Concat(SplitWords(s)) == NonSpace(s)
    decreases |s|
  {
    var a := LeadingSpaces(s);
    NonSpaceAfterSpaces(s, a);
    if a < |s| {
      var t := s[a..];
      var w := WordLength(t);
      NonSpaceOfWordThenRest(t, w);
      SplitWordsJoin(t[w..]);
      var ws := SplitWords(s);
      assert ws == [t[..w]] + SplitWords(t[w..]);
      assert ws[1..] == SplitWords(t[w..]);
    }
  }

  /** Leading white space adds nothing to the non-space characters. */
  lemma NonSpaceAfterSpaces(s: string, a: nat)
    requires a <= |s| && forall i :: 0 <= i < a ==> IsSpace(s[i])
    ensures NonSpace(s) == NonSpace(s[a..])
  {
    assert s == s[..a] + s[a..];
    NonSpaceAppend(s[..a], s[a..]);
    NonSpaceOfSpaces(s[..a]);
  }

  /** A leading word is kept whole in the non-space characters. */
  lemma NonSpaceOfWordThenRest(t: string, w: nat)
    requires w <= |t| && forall i :: 0 <= i < w ==> !IsSpace(t[i])
    ensures NonSpace(t) == t[..w] + NonSpace(t[w..])
  {
    assert t == t[..w] + t[w..];
    NonSpaceAppend(t[..w], t[w..]);
    NonSpaceOfWord(t[..w]);
  }

  /** A text made of white space only has no words. */
  lemma BlankTextHasNoWords(s: string)
    requires forall i :: 0 <= i < |s| ==> IsSpace(s[i])
    ensures SplitWords(s) == []
  {
  }

  // ---------------------------------------------------------------------
  // Markers from timings

  /** A timing as a marker of the given kind. */
  function ToMarkers(ts: seq<NotePlayer.Timing>, kind: MarkerKind): (ms: seq<Marker>)
    ensures |ms| == |ts|
    ensures forall i :: 0 <= i < |ts| ==>
      ms[i] == Marker(ts[i].name, ts[i].start, ts[i].end, kind)
  {
    if |ts| == 0 then []
    else ToMarkers(ts[..|ts| - 1], kind)
         + [Marker(ts[|ts| - 1].name, ts[|ts| - 1].start, ts[|ts| - 1].end, kind)]
  }

  lemma ToMarkersStep(ts: seq<NotePlayer.Timing>, t: NotePlayer.Timing, kind: MarkerKind)
    ensures ToMarkers(ts + [t], kind) == ToMarkers(ts, kind) + [Marker(t.name, t.start, t.end, kind)]
  {
    assert (ts + [t])[..|ts|] == ts;
  }

  /** The markers for timings, built one at a time as the musical engine
      does: one "beat" marker per note timing, with the note's name, start
      and end. */
  method TimingMarkers(ts: seq<NotePlayer.Timing>) returns (ms: seq<Marker>)
    ensures ms == ToMarkers(ts, Beat)
  {
    ms := [];
    var i := 0;
    while i < |ts|
      invariant 0 <= i <= |ts|
      invariant ms == ToMarkers(ts[..i], Beat)
    {
      var t := ts[i];
      ToMarkersStep(ts[..i], t, Beat);
      assert ts[..i] + [t] == ts[..i + 1];
      ms := ms + [Marker(t.name, t.start, t.end, Beat)];
      i := i + 1;
    }
    assert ts[..|ts|] == ts;
  }

  // ---------------------------------------------------------------------
  // MockTTSEngine

  /** How long the mock engine speaks a word: `len(word) / chars_per_second`
      plus a pause of 0.1 s. */
  function SpokenLength(word: string, cps: real): real
    requires cps != 0.0
  {
    |word| as real / cps + 0.1
  }

  /** The words with their spoken lengths. With no words, nothing is
      divided, so a zero rate is allowed then. */
  function SpokenLengths(words: seq<string>, cps: real): (r: seq<(string, real)>)
    requires cps != 0.0 || |words| == 0
    ensures |r| == |words|
  {
    seq(|words|, k requires 0 <= k < |words| => (words[k], SpokenLength(words[k], cps)))
  }

  /** The word markers: the words laid end to end from 0, with no gap. */
  function WordMarkers(words: seq<string>, cps: real): seq<Marker>
    requires cps != 0.0 || |words| == 0
  {
    ToMarkers(NotePlayer.Schedule(SpokenLengths(words, cps), 0.0), Word)
  }

  /** Where the last word ends: the total duration of the mock speech. */
  function SpokenDuration(words: seq<string>, cps: real): real
    requires cps != 0.0 || |words| == 0
  {
    NotePlayer.StartAfter(SpokenLengths(words, cps), 0.0)
  }

  /** The number of beats the mock engine adds: the k >= 1 with 0.5 k below
      the total duration. */
  function BeatCount(total: real): (k: nat)
    ensures k == 0 || 0.5 * k as real < total
    ensures total <= 0.5 * (k + 1) as real
  {
    if total <= 0.5 then 0
    else
      var m := (2.0 * total).Floor;
      if m as real == 2.0 * total then m - 1 else m
  }

  /** The beat markers: "<beat>" at 0.5, 1.0, 1.5, ... strictly below the
      total duration, each of zero length. */
  function BeatMarkers(total: real): (ms: seq<Marker>)
    ensures |ms| == BeatCount(total)
  {
    seq(BeatCount(total), k requires 0 <= k => Marker("<beat>", 0.5 * (k + 1) as real, 0.5 * (k + 1) as real, Beat))
  }

  /** Whether synthesising the mock audio of `total` seconds raises
      ValueError: `np.linspace` refuses a negative sample count, and the
      fades of `int(0.05 * sample_rate)` samples cannot be assigned when
      they are longer than the audio (a one-sample fade still broadcasts
      into empty audio), nor when they are empty while the audio is not
      (the slice `[-0:]` is then the whole array). */
  predicate MockAudioFails(total: real, sampleRate: nat)
  {
    var n := Trunc(total * sampleRate as real);
    var fade := Trunc(0.05 * sampleRate as real);
    n < 0 || (fade > n && fade != 1) || (fade == 0 && n > 0)
  }

  /** `MockTTSEngine.generate`. A zero voice speed makes the first word's
      duration divide by zero, and the audio synthesis raises as
      MockAudioFails says; otherwise the result lasts as long as the
      words, and its markers are the word markers followed by the beat
      markers, stably sorted by start time. */
  method MockGenerate(text: string, voiceSpeed: real, sampleRate: nat) returns (r: Result<TtsResult>)
    ensures r.Err? <==>
      if voiceSpeed == 0.0 && |SplitWords(text)| > 0 then true
      else MockAudioFails(SpokenDuration(SplitWords(text), 15.0 * voiceSpeed), sampleRate)
    ensures r.Ok? ==>
      var words := SplitWords(text);
      var total := SpokenDuration(words, 15.0 * voiceSpeed);
      r.value == TtsResult(sampleRate, total,
                           SortBy(WordMarkers(words, 15.0 * voiceSpeed) + BeatMarkers(total), StartOf))
  {
    r := GenerateWords(SplitWords(text), voiceSpeed, sampleRate);
  }

  /** `MockTTSEngine.generate` once the text is split into words. */
  method GenerateWords(words: seq<string>, voiceSpeed: real, sampleRate: nat) returns (r: Result<TtsResult>)
    ensures r.Err? <==>
      if voiceSpeed == 0.0 && |words| > 0 then true
      else MockAudioFails(SpokenDuration(words, 15.0 * voiceSpeed), sampleRate)
    ensures r.Ok? ==>
      var total := SpokenDuration(words, 15.0 * voiceSpeed);
      r.value == TtsResult(sampleRate, total,
                           SortBy(WordMarkers(words, 15.0 * voiceSpeed) + BeatMarkers(total), StartOf))
  {
    var cps := 15.0 * voiceSpeed;
    if cps == 0.0 && |words| > 0 {
      return Err("float division by zero");
    }
    var result := SpeakAll(words, cps, sampleRate);
    if MockAudioFails(result.duration, sampleRate) {
      return Err("could not broadcast input array");
    }
    r := Ok(result);
  }

  /** A blank text has no words and hence no audio and no markers. Its
      fades can then be assigned only while they are at most one sample
      long, so the mock engine raises exactly from 40 Hz on, and below
      that returns an empty result. */
  lemma BlankTextRaises(text: string, cps: real, sampleRate: nat)
    requires forall i :: 0 <= i < |text| ==> IsSpace(text[i])
    ensures SplitWords(text) == [] && SpokenDuration(SplitWords(text), cps) == 0.0
    ensures WordMarkers(SplitWords(text), cps) == [] && BeatMarkers(0.0) == []
    ensures MockAudioFails(SpokenDuration(SplitWords(text), cps), sampleRate) <==> sampleRate >= 40
  {
    BlankTextHasNoWords(text);
    assert SpokenDuration([], cps) == 0.0;
    TruncTwentieth(sampleRate);
  }

  /** At a positive voice speed and from 20 Hz on, a text with words always
      has audio: every word lasts at least 0.1 s, which is longer than the
      50 ms fades. */
  lemma SpokenTextSynthesises(words: seq<string>, voiceSpeed: real, sampleRate: nat)
    requires voiceSpeed > 0.0 && |words| > 0 && sampleRate >= 20
    ensures !MockAudioFails(SpokenDuration(words, 15.0 * voiceSpeed), sampleRate)
  {
    var cps := 15.0 * voiceSpeed;
    var spoken := SpokenLengths(words, cps);
    forall i | 0 <= i < |spoken| ensures spoken[i].1 >= 0.1 {
      assert |words[i]| as real / cps >= 0.0;
    }
    StartAfterAtLeast(spoken, 0.1);
    FadeFits(SpokenDuration(words, cps), sampleRate);
  }

  /** Audio of at least 0.1 s is longer than its 50 ms fades, which are not
      empty from 20 Hz on. */
  lemma FadeFits(total: real, sampleRate: nat)
    requires total >= 0.1 && sampleRate >= 20
    ensures !MockAudioFails(total, sampleRate)
  {
    var x := sampleRate as real;
    if total > 0.1 {
      MulStrict(x, 0.1, total);
    }
    assert 0.05 * x >= 1.0;
  }

  /** Laid end to end with no gap, notes each at least `lo` long end at
      least `lo` after 0, and never before it. */
  lemma {:induction false} StartAfterAtLeast(notes: seq<(string, real)>, lo: real)
    requires lo >= 0.0
    requires forall i :: 0 <= i < |notes| ==> notes[i].1 >= lo
    ensures NotePlayer.StartAfter(notes, 0.0) >= 0.0
    ensures |notes| > 0 ==> NotePlayer.StartAfter(notes, 0.0) >= lo
  {
    if |notes| > 0 {
      var prefix := notes[..|notes| - 1];
      assert forall i :: 0 <= i < |prefix| ==> prefix[i] == notes[i];
      StartAfterAtLeast(prefix, lo);
    }
  }

  /** The mock speech of words that can be spoken: the word markers and the
      beat markers, stably sorted by start time. */
  method SpeakAll(words: seq<string>, cps: real, sampleRate: nat) returns (r: TtsResult)
    requires cps != 0.0 || |words| == 0
    ensures var total := SpokenDuration(words, cps);
      r == TtsResult(sampleRate, total, SortBy(WordMarkers(words, cps) + BeatMarkers(total), StartOf))
  {
    var markers, total := SpeakWords(SpokenLengths(words, cps));
    markers := AddBeats(markers, total);
    markers := SortBy(markers, StartOf);
    r := TtsResult(sampleRate, total, markers);
  }

  /** The word loop of `MockTTSEngine.generate`, over the words with their
      spoken lengths: one marker per word, laid end to end, and the time
      where the last one ends. */
  method SpeakWords(spoken: seq<(string, real)>) returns (markers: seq<Marker>, total: real)
    ensures markers == ToMarkers(NotePlayer.Schedule(spoken, 0.0), Word)
    ensures total == NotePlayer.StartAfter(spoken, 0.0)
  {
    markers := [];
    ghost var timings: seq<NotePlayer.Timing> := [];
    var current := 0.0;
    var i := 0;
    while i < |spoken|
      invariant 0 <= i <= |spoken|
      invariant timings == NotePlayer.Schedule(spoken[..i], 0.0)
      invariant markers == ToMarkers(timings, Word)
      invariant current == NotePlayer.StartAfter(spoken[..i], 0.0)
    {
      var (word, duration) := spoken[i];
      NotePlayer.ScheduleStep(spoken, 0.0, i);
      var t := NotePlayer.Timing(word, current, current + duration);
      ToMarkersStep(timings, t, Word);
      timings := timings + [t];
      markers := markers + [Marker(word, current, current + duration, Word)];
      current := current + duration;
      i := i + 1;
    }
    assert spoken[..|spoken|] == spoken;
    total := current;
  }

  /** The beat loop of `MockTTSEngine.generate`: appends a "<beat>" marker
      every 0.5 s while the beat time is below the total duration. */
  method AddBeats(markers: seq<Marker>, total: real) returns (ms: seq<Marker>)
    ensures ms == markers + BeatMarkers(total)
  {
    ghost var beats := BeatMarkers(total);
    ms := markers;
    var beatTime := 0.5;
    var j := 0;
    while beatTime < total
      invariant j <= |beats|
      invariant beatTime == 0.5 * (j + 1) as real
      invariant ms == markers + beats[..j]
      decreases |beats| - j
    {
      assert beats[j] == Marker("<beat>", beatTime, beatTime, Beat);
      assert beats[..j + 1] == beats[..j] + [beats[j]];
      ms := ms + [Marker("<beat>", beatTime, beatTime, Beat)];
      beatTime := beatTime + 0.5;
      j := j + 1;
    }
    assert beats[..j] == beats;
  }

  /** The word markers: one per word of `text.split()`, in order, with the
      word as text; the first starts at 0, each lasts len(word)/cps + 0.1
      and ends where the next one starts, and the last one ends at the total
      duration (which is 0 when there are no words). */
  lemma WordMarkersShape(words: seq<string>, cps: real)
    requires cps != 0.0
    ensures var ms := WordMarkers(words, cps);
      && |ms| == |words|
      && (forall i :: 0 <= i < |ms| ==> ms[i].text == words[i] && ms[i].kind == Word)
      && (forall i :: 0 <= i < |ms| ==> ms[i].end - ms[i].start == |words[i]| as real / cps + 0.1)
      && (|ms| > 0 ==> ms[0].start == 0.0)
      && (forall i :: 0 < i < |ms| ==> ms[i].start == ms[i - 1].end)
      && (|ms| > 0 ==> ms[|ms| - 1].end == SpokenDuration(words, cps))
      && (|ms| == 0 ==> SpokenDuration(words, cps) == 0.0)
  {
    var secs := SpokenLengths(words, cps);
    NotePlayer.ScheduleShape(secs, 0.0);
    if |words| > 0 {
      NotePlayer.ScheduleEnd(secs, 0.0);
    }
  }

  /** The beat markers lie at 0.5 (k + 1), strictly inside the speech, with
      start equal to end and text "<beat>"; the next multiple of 0.5 would
      reach the total duration. */
  lemma BeatMarkersShape(total: real)
    ensures var bs := BeatMarkers(total);
      && (forall k :: 0 <= k < |bs| ==>
            bs[k].text == "<beat>" && bs[k].kind == Beat
            && bs[k].start == bs[k].end == 0.5 * (k + 1) as real && bs[k].start < total)
      && total <= 0.5 * (|bs| + 1) as real
  {
    var bs := BeatMarkers(total);
    forall k | 0 <= k < |bs| ensures bs[k].start < total {
      assert 0.5 * (k + 1) as real <= 0.5 * |bs| as real;
    }
  }

  /** The mock markers are ordered by start time, are exactly the word and
      beat markers, and markers that start at the same time keep the order
      in which they were added (the sort is stable). */
  lemma MockMarkersOrdered(words: seq<string>, cps: real)
    requires cps != 0.0 || |words| == 0
    ensures var unsorted := WordMarkers(words, cps) + BeatMarkers(SpokenDuration(words, cps));
      var ms := SortBy(unsorted, StartOf);
      && SortedBy(ms, StartOf)
      && multiset(ms) == multiset(unsorted)
      && forall t :: WithKey(ms, StartOf, t) == WithKey(unsorted, StartOf, t)
  {
    var unsorted := WordMarkers(words, cps) + BeatMarkers(SpokenDuration(words, cps));
    SortByProperties(unsorted, StartOf);
  }

  // ---------------------------------------------------------------------
  // MusicalTTSEngine

  /** The melody the musical engine sings: "happy_birthday" selects Happy
      Birthday, any other name (including "twinkle") Twinkle Twinkle. */
  function SongNotes(song: string): (notes: seq<(string, real)>)
    ensures song == "happy_birthday" ==> notes == NotePlayer.HappyBirthday
    ensures song != "happy_birthday" ==> notes == NotePlayer.Twinkle
    ensures |notes| > 0
  {
    if song == "twinkle" then NotePlayer.Twinkle
    else if song == "happy_birthday" then NotePlayer.HappyBirthday
    else NotePlayer.Twinkle
  }

  /** `MusicalTTSEngine.generate`: the note sequence of the song at the given
      tempo with a 0.05 s gap, and one "beat" marker per note timing. It
      fails exactly when `generate_sequence` does. */
  method MusicalGenerate(song: string, tempo: real, sampleRate: nat) returns (r: Result<TtsResult>)
    ensures r.Ok? <==>
      tempo != 0.0
      && NotePlayer.AllNotesAudible(NotePlayer.InSeconds(SongNotes(song), 60.0 / tempo), sampleRate)
    ensures r.Ok? ==>
      var secs := NotePlayer.InSeconds(SongNotes(song), 60.0 / tempo);
      && sampleRate > 0
      && r.value.sampleRate == sampleRate
      && r.value.markers == ToMarkers(NotePlayer.Schedule(secs, NotePlayer.SongGap), Beat)
      && r.value.duration
         == NotePlayer.TotalSamples(secs, NotePlayer.SongGap, sampleRate) as real / sampleRate as real
  {
    var notes := SongNotes(song);
    var generated := NotePlayer.GenerateSequence(notes, tempo, NotePlayer.SongGap, sampleRate);
    if generated.Err? {
      return Err(generated.message);
    }
    var markers := TimingMarkers(generated.value.timings);
    r := Ok(TtsResult(generated.value.sampleRate, generated.value.duration, markers));
  }

  // ---------------------------------------------------------------------
  // EmotionTTSEngine

  /** EmotionNote as the emotion song player produces it: a sound name, a
      start time and an optional duration. */
  datatype EmotionNote = EmotionNote(sound: string, start: real, duration: Option<real>)

  /** A song as the emotion song player returns it: its notes and its total
      duration. The player itself is not part of this model. */
  type Song = (seq<EmotionNote>, real)

  /** The marker for note `i`: "note_i", from the note's start for its
      duration, or for the whole song when it has none. */
  function EmotionMarker(i: nat, note: EmotionNote, total: real): Marker
  {
    Marker("note_" + NatToString(i), note.start,
           note.start + (if note.duration.Some? then note.duration.value else total), Beat)
  }

  /** The marker list of `EmotionTTSEngine.generate`, built in a loop. */
  method EmotionMarkers(notes: seq<EmotionNote>, total: real) returns (ms: seq<Marker>)
    ensures |ms| == |notes|
    ensures forall i :: 0 <= i < |notes| ==>
      && ms[i].text == "note_" + NatToString(i)
      && ms[i].start == notes[i].start
      && ms[i].end == notes[i].start + (if notes[i].duration.Some? then notes[i].duration.value else total)
      && ms[i].kind == Beat
  {
    ms := [];
    var i := 0;
    while i < |notes|
      invariant 0 <= i <= |notes|
      invariant |ms| == i
      invariant forall k :: 0 <= k < i ==> ms[k] == EmotionMarker(k, notes[k], total)
    {
      var note := notes[i];
      var duration := if note.duration.Some? then note.duration.value else total;
      ms := ms + [Marker("note_" + NatToString(i), note.start, note.start + duration, Beat)];
      i := i + 1;
    }
  }

  /** The emotion markers have pairwise different texts: "note_i" names
      note i and no other. */
  lemma EmotionMarkerTextsDistinct(i: nat, j: nat)
    requires "note_" + NatToString(i) == "note_" + NatToString(j)
    ensures i == j
  {
    var a, b := "note_" + NatToString(i), "note_" + NatToString(j);
    assert a[5..] == NatToString(i);
    assert b[5..] == NatToString(j);
    NatToStringRoundTrip(i);
    NatToStringRoundTrip(j);
  }

  /** The length of the silent placeholder audio: `int(total * 24000)`. */
  function SilentSamples(total: real): int
  {
    Trunc(total * 24000.0)
  }

  /** EmotionTTSEngine: remembers the notes of the last song it generated so
      that `play_song` can play them. */
  class EmotionEngine {
    var current: Option<Song>

    constructor()
      ensures current == None
    {
      current := None;
    }

    /** `generate`: "twinkle" and "birthday" select the song the player
        builds (given here as parameters); any other name raises ValueError
        and leaves the engine as it was. The song is stored before the
        placeholder audio is allocated, which raises for a negative length. */
    method Generate(song: string, twinkle: Song, birthday: Song) returns (r: Result<TtsResult>)
      modifies this
      ensures song != "twinkle" && song != "birthday" ==>
        r == Err("Unknown song: " + song) && current == old(current)
      ensures song == "twinkle" || song == "birthday" ==>
        var (notes, total) := if song == "twinkle" then twinkle else birthday;
        && current == Some((notes, total))
        && (r.Ok? <==> SilentSamples(total) >= 0)
        && (r.Ok? ==> r.value.sampleRate == 24000 && r.value.duration == total
                      && |r.value.markers| == |notes|
                      && forall i :: 0 <= i < |notes| ==>
                           r.value.markers[i] == EmotionMarker(i, notes[i], total))
    {
      var notes: seq<EmotionNote>;
      var total: real;
      if song == "twinkle" {
        notes, total := twinkle.0, twinkle.1;
      } else if song == "birthday" {
        notes, total := birthday.0, birthday.1;
      } else {
        return Err("Unknown song: " + song);
      }
      var markers := EmotionMarkers(notes, total);
      current := Some((notes, total));
      if SilentSamples(total) < 0 {
        return Err("negative dimensions are not allowed");
      }
      r := Ok(TtsResult(24000, total, markers));
    }
  }

  // ---------------------------------------------------------------------
  // OpenAITTSEngine and the factory

  /** `OpenAITTSEngine.generate` always raises NotImplementedError. */
  function OpenAiGenerate(text: string): (r: Result<TtsResult>)
    ensures r.Err?
  {
    Err("OpenAI TTS integration not yet implemented - use MockTTSEngine for testing")
  }

  /** The engines `create_tts_engine` builds, with their constructor
      defaults. */
  datatype EngineKind =
    | MockEngine(sampleRate: nat)
    | OpenAiEngine(model: string, voice: string)
    | MusicalEngine(sampleRate: nat)
    | EmotionEngineKind

  /** `create_tts_engine`: one of the four engine types, anything else
      raises ValueError. */
  function CreateEngine(engineType: string): (r: Result<EngineKind>)
    ensures r.Err? <==> engineType !in {"mock", "openai", "musical", "emotion"}
    ensures r.Err? ==> r.message == "Unknown engine type: " + engineType
    ensures engineType == "mock" ==> r == Ok(MockEngine(24000))
    ensures engineType == "musical" ==> r == Ok(MusicalEngine(24000))
  {
    if engineType == "mock" then Ok(MockEngine(24000))
    else if engineType == "openai" then Ok(OpenAiEngine("tts-1", "alloy"))
    else if engineType == "musical" then Ok(MusicalEngine(24000))
    else if engineType == "emotion" then Ok(EmotionEngineKind)
    else Err("Unknown engine type: " + engineType)
  }
}
