# Reachy Mini apps: a verified model of the performance core

This project models in Dafny the core of a set of apps for the Reachy Mini robot. In those apps the robot speaks or sings, and its head and antennas move in time with the audio. The model covers:

- **Speech and songs** (`tts_engine.py`, `note_player.py`).
  - The mock TTS engine, the musical engine and the emotion engine produce timing markers, plus the duration of the audio they would produce.
  - The note sequencer lays notes end to end with a gap between them.
- **Choreography** (`choreography.py`).
  - The plan `generate_from_tts` builds for each style, sorted by timestamp.
  - The engine's event list, start/stop flags and execution loop.
  - The routing of an event to a built-in move or to a controller gesture.
- **Audio playback** (`audio_player.py`).
  - A loaded buffer is cut into 50 ms chunks, zero-padded and written to the stream or handed to a callback.
  - Playback runs under a playing flag and a stop event, on the real device path and on the simulated one.
- **Audio-reactive motion** (`audio_reactive.py`).
  - Per-chunk features: amplitude, beat strength and frequency content, with an energy history of at most 43 entries.
  - Generation tagging, which discards chunks fed before a start or a reset.
  - The processing loop that turns accepted chunks into head offsets.
- **Safety limits** (`safe_motions.py`): head and antenna validation, clamping, and the safe duration of a move.
- **Emotion detection** (`emotion_detector.py`): the decision tree over tempo, energy and valence, and the emotion-to-gesture table.
- **App configuration** (`config.py`): defaults, loading from environment variables, and the `to_dict` round trip.
- **The Reachy Remix motion engine** (`reachy_remix.py`): the move registry, single moves, and sequences that stop at the first failure, with feedback nods between moves.
- **The theme preview script** (`quick_theme_test.py`): `hex_to_rgb` and the grouping of themes into light and dark.

**Modules.** There is one Dafny module per source file, plus two shared ones:

- `Util`: Option/Result, and Python's `int()`, `%`, `np.clip` and `str(n)` over reals and naturals.
- `Sorting`: a stable sort by a real key, which models `list.sort(key=...)`.

**How the source's state is modelled.**

- Objects that the source mutates are Dafny classes. Their methods state the whole new state.
- Loops are methods with invariants, proved against specification functions. Lemmas then prove the source's promises about those functions.
- Threads become sequential calls.
- Clock readings are given as parameters, and so are the points at which another thread sets a stop flag.
- `sqrt` and `sin` are function parameters, constrained only by the bounds the code relies on.

## Model

| member | source | states |
|---|---|---|
| Util.Clip | src/common/reachy/audio_reactive.py:65 | `np.clip` lies within [lo, hi], is the identity inside it and gives the violated bound outside it |
| Util.Trunc | src/common/reachy/audio_player.py:165 | `int()` on a float truncates toward zero: the floor for non-negative values, never positive for negative ones |
| Util.TruncTwentieth | src/common/reachy/tts_engine.py:125 | `int(n * 0.05)` for a natural n is the integer quotient n / 20 |
| Util.FMod | src/common/reachy/choreography.py:157 | Python's float `%` by a positive modulus lies in [0, m), also for negative operands |
| Util.NatToStringRoundTrip | src/common/reachy/tts_engine.py:307 | `str(n)` is decimal: reading the digits back gives n |
| Util.NatToString | src/common/reachy/tts_engine.py:307 | `str(n)` is a non-empty string of decimal digits |
| Sorting.SortByProperties | src/common/reachy/choreography.py:198 | the stable sort by key orders by key, is a permutation, keeps the length, and keeps the relative order of elements with equal keys |
| Sorting.SortBySortedIdentity | src/common/reachy/choreography.py:198 | sorting a list already in key order leaves it unchanged |
| Sorting.SortBySorted | src/common/reachy/tts_engine.py:155 | the sort's result is ordered by key |
| Sorting.SortByPermutes | src/common/reachy/tts_engine.py:155 | the sort's result has the same multiset of elements |
| Sorting.SortByKeepsKeyOrder | src/common/reachy/tts_engine.py:155 | for every key value, the elements carrying it appear in their original order (stability) |
| Theme.HexValue | src/apps/reachy-remix/archive/quick_theme_test.py:104 | a hex digit's value is below 16 |
| Theme.StripShort | src/apps/reachy-remix/archive/quick_theme_test.py:104 | the white space that `int()` strips: the result is no longer than the input and has no white space at either end |
| Theme.IntBase16 | src/apps/reachy-remix/archive/quick_theme_test.py:104 | `int(s, 16)` on at most two characters, with ASCII digits: an empty string raises, and a result lies in [-15, 255] |
| Theme.ParseHexPair | src/apps/reachy-remix/archive/quick_theme_test.py:104 | one pair of `hex_to_rgb`: an empty pair raises, and a parsed value lies in [-15, 255] |
| Theme.ParseHexPairIsInt | src/apps/reachy-remix/archive/quick_theme_test.py:104 | the pair parser used by `hex_to_rgb` agrees with the model of `int(s, 16)` (ASCII digits) on every string of at most two characters |
| Theme.ParseTwoDigits | src/apps/reachy-remix/archive/quick_theme_test.py:104 | two hex digits parse to 16·hi + lo, which lies in [0, 255] |
| Theme.StripHashes | src/apps/reachy-remix/archive/quick_theme_test.py:103 | `lstrip('#')` leaves no leading '#' and never lengthens the string |
| Theme.Pair | src/apps/reachy-remix/archive/quick_theme_test.py:104 | the slice `s[i:i+2]` is at most two long, is exact inside the string and is cut short at its end |
| Theme.PairsToRgb | src/apps/reachy-remix/archive/quick_theme_test.py:104 | the three pair conversions after stripping: fewer than five characters always raise |
| Theme.HexToRgb | src/apps/reachy-remix/archive/quick_theme_test.py:101-104 | fewer than five characters after the '#'s leave the third pair empty, so the conversion raises |
| Theme.HexToRgbChannels | src/apps/reachy-remix/archive/quick_theme_test.py:101-104 | for six hex digits after any number of '#', each channel is the value of its digit pair, in [0, 255] |
| Theme.PairsChannels | src/apps/reachy-remix/archive/quick_theme_test.py:104 | the pairs at 0, 2 and 4 of a hex colour parse to its three channels |
| Theme.PairParses | src/apps/reachy-remix/archive/quick_theme_test.py:104 | the pair at i of a run of hex digits parses to its base-16 value |
| Theme.HashesIgnored | src/apps/reachy-remix/archive/quick_theme_test.py:103 | extra leading '#' characters do not change the converted colour |
| Theme.ToHex | src/apps/reachy-remix/archive/quick_theme_test.py:101-104 | a colour renders as "#" followed by six characters |
| Theme.ToHexRoundTrip | src/apps/reachy-remix/archive/quick_theme_test.py:101-104 | `hex_to_rgb` inverts the "#RRGGBB" rendering for every colour with channels in [0, 255] |
| Theme.CosmoPrimary | src/apps/reachy-remix/archive/quick_theme_test.py:11 | cosmo's primary "#2780E3" converts to (39, 128, 227) |
| Theme.ShortColourRaises | src/apps/reachy-remix/archive/quick_theme_test.py:104 | "#FFF" and "##1234" raise instead of converting |
| Theme.OfKind | src/apps/reachy-remix/archive/quick_theme_test.py:121-122 | the comprehension that groups themes by type never grows the table |
| Theme.OfKindMembers | src/apps/reachy-remix/archive/quick_theme_test.py:121-122 | a theme is kept exactly when it is in the table and has the given type |
| Theme.PartitionSizes | src/apps/reachy-remix/archive/quick_theme_test.py:121-122 | the light and dark group sizes add up to the table size |
| Theme.PartitionDisjointCovering | src/apps/reachy-remix/archive/quick_theme_test.py:121-122 | no theme is in both groups, and every theme is in one of them |
| Theme.OfKindUniform | src/apps/reachy-remix/archive/quick_theme_test.py:121-122 | a table of one type is kept whole by that type and emptied by the other |
| Theme.ThemeCounts | src/apps/reachy-remix/archive/quick_theme_test.py:121-148 | the script reports 9 themes: 4 light (the first four) and 5 dark (the rest) |
| Theme.ColourParses | src/apps/reachy-remix/archive/quick_theme_test.py:7-98 | every colour written "#RRGGBB", as all the table's colours are, converts |
| NotePlayer.NoteFrequency | src/common/reachy/note_player.py:104-108 | a known note plays its table frequency, an unknown one plays C4; every frequency is in [261.63, 659.25] |
| NotePlayer.GapSamples | src/common/reachy/note_player.py:197-200 | no gap samples are added unless the gap is positive |
| NotePlayer.EnvelopeSizes | src/common/reachy/note_player.py:126-141 | attack and decay are n/10 samples and sustain is 6n/10; the release is non-negative and at least n/5; the four segments add up to n |
| NotePlayer.TenthFloor | src/common/reachy/note_player.py:129-137 | `int(n * 0.1)` and `int(n * 0.6)` are the integer quotients n/10 and 6n/10 |
| NotePlayer.InSeconds | src/common/reachy/note_player.py:179-187 | converting beats to seconds keeps one entry per note |
| NotePlayer.Schedule | src/common/reachy/note_player.py:184-207 | one timing per note |
| NotePlayer.GenerateSequence | src/common/reachy/note_player.py:162-225 | raises exactly when the tempo is 0, the list is empty, or a note is shorter than one sample; otherwise the timings are the schedule and the duration is total samples over the rate |
| NotePlayer.SequenceOfDurations | src/common/reachy/note_player.py:181-225 | the loop succeeds exactly on a non-empty list of audible notes, and then records the schedule and the total sample count |
| NotePlayer.ScheduleShape | src/common/reachy/note_player.py:186-207 | timing i has note i's name, starts where the first i notes leave off and lasts the note's length; each start is the previous end plus the gap |
| NotePlayer.ScheduleAt | src/common/reachy/note_player.py:184-207 | entry i of the schedule is the i-th note placed after the notes before it |
| NotePlayer.ScheduleEnd | src/common/reachy/note_player.py:203-207 | the running time after the loop is the last end plus the gap |
| NotePlayer.ScheduleOrdered | src/common/reachy/note_player.py:186-207 | with positive lengths and a non-negative gap, starts strictly increase and no note ends after a later note starts |
| NotePlayer.PositiveInSeconds | src/common/reachy/note_player.py:179-187 | at a positive tempo, notes of positive beats last a positive number of seconds |
| NotePlayer.SongsWellFormed | src/common/reachy/note_player.py:38-62 | both melodies use known notes with positive lengths (42 and 25 notes); at 120 BPM twinkle's first note spans [0, 0.5] and the second starts at 0.55 |
| TtsEngine.SplitWords | src/common/reachy/tts_engine.py:85 | `text.split()` yields non-empty words without white space |
| TtsEngine.SplitWordsJoin | src/common/reachy/tts_engine.py:85 | joining the words gives back the text's non-space characters in order |
| TtsEngine.BlankTextHasNoWords | src/common/reachy/tts_engine.py:85 | a text of white space only has no words |
| TtsEngine.ToMarkers | src/common/reachy/tts_engine.py:240-248 | one marker per note timing, with the same name, start and end |
| TtsEngine.TimingMarkers | src/common/reachy/tts_engine.py:241-248 | the marker loop builds exactly one "beat" marker per timing, in order |
| TtsEngine.BeatCount | src/common/reachy/tts_engine.py:142-152 | the beat loop runs k times: 0.5·k is below the duration (or k = 0), and the next beat would reach it |
| TtsEngine.BeatMarkers | src/common/reachy/tts_engine.py:142-152 | there are as many beat markers as the loop runs |
| TtsEngine.MockGenerate | src/common/reachy/tts_engine.py:71-164 | raises exactly when a zero voice speed meets a word, or the sample count is negative, or a fade longer than one sample does not fit the audio, or the fade is empty while the audio is not; otherwise the duration is the spoken duration and the markers are the word then beat markers, stably sorted by start |
| TtsEngine.GenerateWords | src/common/reachy/tts_engine.py:84-164 | the same, for a text already split into words: the same raise condition, the same duration and sorted markers |
| TtsEngine.SpeakAll | src/common/reachy/tts_engine.py:88-164 | speech that can be timed yields the sorted word and beat markers and the spoken duration |
| TtsEngine.SpeakWords | src/common/reachy/tts_engine.py:91-107 | the word loop lays the words end to end from 0, with no gap, and ends at the total duration |
| TtsEngine.AddBeats | src/common/reachy/tts_engine.py:142-152 | the beat loop appends exactly the beat markers of the duration |
| TtsEngine.BlankTextRaises | src/common/reachy/tts_engine.py:109-127 | a blank text has no words, no duration and no markers; its synthesis raises exactly from 40 Hz on (fades of two or more samples), and below 40 Hz the engine returns the empty result |
| TtsEngine.SpokenTextSynthesises | src/common/reachy/tts_engine.py:94-127 | at a positive voice speed and from 20 Hz on, a text with words never makes the audio synthesis raise |
| TtsEngine.FadeFits | src/common/reachy/tts_engine.py:125-127 | audio of at least 0.1 s is longer than its non-empty 50 ms fades |
| TtsEngine.WordMarkersShape | src/common/reachy/tts_engine.py:94-107 | one "word" marker per word, with the word as text; each lasts len/cps + 0.1; the first starts at 0; each starts where the previous ends; the last ends at the total duration |
| TtsEngine.BeatMarkersShape | src/common/reachy/tts_engine.py:142-152 | "<beat>" markers of zero length at 0.5(k+1), all strictly before the end; the next one would not be |
| TtsEngine.MockMarkersOrdered | src/common/reachy/tts_engine.py:154-155 | the returned markers are ordered by start, are exactly the word and beat markers, and keep their insertion order on ties |
| TtsEngine.SongNotes | src/common/reachy/tts_engine.py:232-238 | "happy_birthday" selects that melody; any other name falls back to twinkle |
| TtsEngine.MusicalGenerate | src/common/reachy/tts_engine.py:211-257 | fails exactly when the sequencer does; otherwise one "beat" marker per note timing of the song at a 0.05 s gap, and the sequencer's duration and rate |
| TtsEngine.EmotionMarkers | src/common/reachy/tts_engine.py:302-311 | marker i is "note_i", starts at note i's start and lasts its duration, or the whole song when it has none |
| TtsEngine.EmotionMarkerTextsDistinct | src/common/reachy/tts_engine.py:307 | two notes share a marker text only if they are the same note |
| TtsEngine.EmotionEngine.constructor | src/common/reachy/tts_engine.py:267-271 | a new engine holds no song |
| TtsEngine.EmotionEngine.Generate | src/common/reachy/tts_engine.py:273-328 | an unknown song raises and changes nothing; a known one is stored, then succeeds unless its placeholder length is negative, with 24000 Hz, its total duration and its note markers |
| TtsEngine.OpenAiGenerate | src/common/reachy/tts_engine.py:187-192 | the OpenAI engine always raises |
| TtsEngine.CreateEngine | src/common/reachy/tts_engine.py:364-386 | raises "Unknown engine type" exactly for names other than the four engines; mock and musical default to 24000 Hz |
| Choreography.RouteOf | src/common/reachy/choreography.py:259-354 | an event plays its built-in move exactly when it names a non-empty move and its magnitude is 0; otherwise its gesture's controller method, with the parameters exactly for sway, lean, pause, nod and wave |
| Choreography.OfKind | src/common/reachy/choreography.py:129-130 | the markers of one kind are exactly those in the list with that kind |
| Choreography.NodEvents | src/common/reachy/choreography.py:135-136 | one nod per beat |
| Choreography.PhraseBreaks | src/common/reachy/choreography.py:157 | the phrase breaks are exactly the word markers that satisfy the break test |
| Choreography.FirstThree | src/common/reachy/choreography.py:158 | `[:3]` is the prefix of length min(3, n) |
| Choreography.PauseEvents | src/common/reachy/choreography.py:158-160 | at most one pause per break |
| Choreography.RunEvents | src/common/reachy/choreography.py:236-255 | the loop over the given passes produces exactly the run Replay describes: its dispatches, its pass count and whether it ended on the stop flag |
| Choreography.Replay | src/common/reachy/choreography.py:236-255 | the run from a pass never outlasts the passes and never fires more than the remaining events |
| Choreography.RunDispatches | src/common/reachy/choreography.py:236-255 | events fire in list order, each at most once, in increasing passes, at the elapsed time their pass read and never before their timestamp |
| Choreography.RunEnds | src/common/reachy/choreography.py:236-255 | no pass before the last sees the stop flag; the run ended on the stop flag exactly when its last pass saw it, or saw it interrupt the wait for an event not yet due; otherwise every event fired or the passes ran out |
| Choreography.ReplayLog | src/common/reachy/choreography.py:236-255 | from any pass and event index: each dispatch fires the next event at its pass's elapsed time, no earlier than its timestamp, in increasing passes |
| Choreography.ReplayEnd | src/common/reachy/choreography.py:236-255 | from any pass and event index: why the run ended, as RunEnds states it |
| Choreography.ReplayAllFire | src/common/reachy/choreography.py:236-255 | with no stop, once the clock has passed every timestamp, |events| further passes fire every event: an event that is due always fires |
| Choreography.ChoreographyEngine.constructor | src/common/reachy/choreography.py:59-83 | a new engine has no events, no run and no start time |
| Choreography.ChoreographyEngine.AddEvent | src/common/reachy/choreography.py:85-107 | appends exactly the given event and changes nothing else |
| Choreography.ChoreographyEngine.ClearEvents | src/common/reachy/choreography.py:109-112 | empties the event list and changes nothing else |
| Choreography.ChoreographyEngine.GenerateFromTts | src/common/reachy/choreography.py:114-199 | the events become the style's plan sorted by timestamp; earlier events are discarded |
| Choreography.ChoreographyEngine.AddPlan | src/common/reachy/choreography.py:126-196 | appends the style's events in the order the source adds them |
| Choreography.ChoreographyEngine.AddEnergetic | src/common/reachy/choreography.py:132-152 | appends the nods, then the waves, then the finish |
| Choreography.ChoreographyEngine.AddDramatic | src/common/reachy/choreography.py:154-168 | appends the pauses, then the lean, then the finish |
| Choreography.ChoreographyEngine.AddDefault | src/common/reachy/choreography.py:170-195 | appends the greeting, then the dances, then the bow |
| Choreography.ChoreographyEngine.AddNods | src/common/reachy/choreography.py:135-136 | the beat loop appends one nod per beat |
| Choreography.ChoreographyEngine.AddWaves | src/common/reachy/choreography.py:139-148 | the wave loop appends the waves for i < int(duration / 3) that come before duration - 1 |
| Choreography.ChoreographyEngine.AddPauses | src/common/reachy/choreography.py:158-160 | the pause loop appends the pauses of breaks after 1 s |
| Choreography.ChoreographyEngine.AddDances | src/common/reachy/choreography.py:179-191 | the dance loop appends the dances for i < min(3, int(duration / 10)) that come before duration - 3 |
| Choreography.ChoreographyEngine.Start | src/common/reachy/choreography.py:201-216 | a no-op while running; otherwise clears the stop flag, sets the start time (the given one if truthy, else the clock) and marks the run as going |
| Choreography.ChoreographyEngine.Stop | src/common/reachy/choreography.py:218-225 | sets the stop flag exactly when a run was ever started |
| Choreography.ChoreographyEngine.ExecutionLoop | src/common/reachy/choreography.py:227-257 | without a start time, or with the stop flag already set, nothing fires; otherwise the dispatches are Replay's run from the start time (in order, each at or after its timestamp) and a stop the loop saw is recorded in the flag; the run ends |
| Choreography.NodEventsAt | src/common/reachy/choreography.py:135-136 | nod i is at beat i's start; there are exactly as many nods as beats, and nothing else |
| Choreography.WaveEventsMembers | src/common/reachy/choreography.py:139-148 | the waves are exactly the waves at 3i + 1 for i < n that come before duration - 1 |
| Choreography.PauseEventsMembers | src/common/reachy/choreography.py:158-160 | the pauses are exactly those 0.3 s before the given breaks that start after 1 s |
| Choreography.DanceEventsMembers | src/common/reachy/choreography.py:179-191 | the dances are exactly those at 10i + 2 for i < n that come before duration - 3; there are at most n |
| Choreography.DanceRoutesToBuiltin | src/common/reachy/choreography.py:272-279 | every planned dance plays as the built-in move it names |
| Choreography.EnergeticNods | src/common/reachy/choreography.py:134-136 | "energetic": one nod per beat marker, at its start, first in the plan |
| Choreography.EnergeticWaves | src/common/reachy/choreography.py:138-148 | "energetic": the waves are exactly those at 3i + 1 for i < int(duration / 3) before duration - 1 |
| Choreography.FinishOnce | src/common/reachy/choreography.py:150-168 | "energetic" and "dramatic": one big finish at duration - 0.5 exactly when the duration exceeds 2 s |
| Choreography.DramaticPauses | src/common/reachy/choreography.py:156-160 | "dramatic": at most three pauses, drawn from the first three phrase-break word markers, each 0.3 s before a break after 1 s |
| Choreography.DramaticLean | src/common/reachy/choreography.py:162-164 | "dramatic": one lean at the midpoint exactly when the duration exceeds 4 s |
| Choreography.DefaultGreeting | src/common/reachy/choreography.py:174-195 | any other style: one happy at 0.5 s and one bow at duration - 1, exactly when the duration exceeds 2 s |
| Choreography.DefaultDances | src/common/reachy/choreography.py:178-191 | any other style: the sways are exactly the dances, and each plays as its built-in move |
| Choreography.DefaultDanceCount | src/common/reachy/choreography.py:180 | any other style: at most min(3, int(duration / 10)) sways |
| Choreography.GeneratedEventsOrdered | src/common/reachy/choreography.py:197-198 | the generated events are ordered by timestamp, are a permutation of the plan, and keep the plan's order on ties |
| Choreography.RoutingExamples | src/common/reachy/choreography.py:272 | a missing magnitude counts as 1.0; a magnitude of 0.0 or False selects the move; 0.5 or an empty move name does not |
| AudioPlayer.ChunkSizeTwentieth | src/common/reachy/audio_player.py:165 | `int(rate * 0.05)` is rate / 20 rounded down, and at least 1 from 20 Hz on |
| AudioPlayer.ChunksSlices | src/common/reachy/audio_player.py:176-180 | chunk k is the slice from k·c to min(k·c + c, len) |
| AudioPlayer.ChunksCount | src/common/reachy/audio_player.py:176-197 | the loop takes the fewest chunks of c that cover the buffer: len ≤ n·c < len + c |
| AudioPlayer.ChunksShape | src/common/reachy/audio_player.py:179-180 | every chunk is non-empty and at most c long; all but the last are exactly c |
| AudioPlayer.ChunksFlatten | src/common/reachy/audio_player.py:176-197 | the chunks together are the buffer: every sample once, in order |
| AudioPlayer.ChunksPrefix | src/common/reachy/audio_player.py:176-197 | the first k chunks together are the buffer's first min(k·c, len) samples |
| AudioPlayer.PadFillsBlock | src/common/reachy/audio_player.py:182-184 | padding makes a short chunk exactly c long, with zeros after its samples, and leaves a full chunk alone |
| AudioPlayer.WrittenBlocks | src/common/reachy/audio_player.py:182-195 | every written block is c long, and all but the last are the chunk itself |
| AudioPlayer.WrittenStream | src/common/reachy/audio_player.py:176-197 | the written stream is the buffer followed by fewer than c zeros |
| AudioPlayer.SentProperties | src/common/reachy/audio_player.py:177 | a loop sends at most every chunk, and all of them exactly when it ends with the stop event clear; an event left set silences the next loop |
| AudioPlayer.StreamBlocks | src/common/reachy/audio_player.py:176-197 | the loop sends the padded chunks up to the stop, and reports whether the stop event was seen |
| AudioPlayer.SimulatedChunks | src/common/reachy/audio_player.py:218-232 | the simulated loop hands over the unpadded chunks up to the stop |
| AudioPlayer.Player.constructor | src/common/reachy/audio_player.py:37-61 | no audio, duration 0, not playing, no start time, the stop event clear |
| AudioPlayer.Player.LoadAudio | src/common/reachy/audio_player.py:63-76 | the buffer is stored; the duration becomes samples / rate, except that a rate of 0 raises after storing the buffer |
| AudioPlayer.Player.CurrentTime | src/common/reachy/audio_player.py:142-150 | the playback time is 0 whenever not playing |
| AudioPlayer.Player.CurrentTimeAdvances | src/common/reachy/audio_player.py:142-150 | while playing, the playback time advances with the clock from 0 at the start time |
| AudioPlayer.Player.PlaybackLoop | src/common/reachy/audio_player.py:156-204 | writes the padded chunks up to the stop to the stream, and hands them to the callback if there is one; sets the start time; clears the playing flag on exit |
| AudioPlayer.Player.SimulatePlayback | src/common/reachy/audio_player.py:206-235 | as written: hands the unpadded chunks to the callback until the stop event, which it does not clear first; writes nothing |
| AudioPlayer.Player.Play | src/common/reachy/audio_player.py:101-127 | no audio: nothing; no device: simulated playback after clearing the stop event (corrected); already playing: nothing; otherwise raises the flag, clears the event, then plays here (blocking) or starts a thread |
| AudioPlayer.Player.Stop | src/common/reachy/audio_player.py:129-140 | ignored when not playing; otherwise sets the stop event and clears the flag, after which the playback time reads 0 |
| AudioPlayer.StaleStopSilencesReplay | src/common/reachy/audio_player.py:206-235 | for a three-chunk buffer, a simulated play stopped after one chunk leaves the event set; replaying as written delivers nothing, while clearing first delivers the whole buffer |
| AudioPlayer.SimulatedPlayDeliversAll | src/common/reachy/audio_player.py:218-232 | an unstopped simulated play, with the event cleared, hands the callback every sample once and in order |
| AudioReactive.Normalized | src/common/reachy/audio_reactive.py:61 | each int16 sample is divided by 32768 |
| AudioReactive.SumSquares | src/common/reachy/audio_reactive.py:64-68 | a sum of squares is non-negative |
| AudioReactive.SumSquaredDiffs | src/common/reachy/audio_reactive.py:82 | the high-pass energy is non-negative |
| AudioReactive.Energy | src/common/reachy/audio_reactive.py:68 | a chunk's energy is non-negative |
| AudioReactive.Amplitude | src/common/reachy/audio_reactive.py:63-65 | the amplitude is NaN exactly for an empty chunk, and otherwise lies in [0, 1] |
| AudioReactive.Push | src/common/reachy/audio_reactive.py:69-71 | the history gains the new energy as its last entry and never exceeds 43 entries |
| AudioReactive.PushWindow | src/common/reachy/audio_reactive.py:69-71 | below 43 entries the energy is appended; at 43 the oldest is dropped; the history stays non-negative |
| AudioReactive.BeatStrength | src/common/reachy/audio_reactive.py:73-78 | the beat strength lies in [0, 1] and is 0 while the history has at most 10 entries |
| AudioReactive.FrequencyContent | src/common/reachy/audio_reactive.py:80-86 | the frequency content lies in [0, 1] and is 0.5 for chunks of at most 10 samples |
| AudioReactive.MotionBounds | src/common/reachy/audio_reactive.py:217-237 | sway lies in [-3.5, 3.5], bob in [-4.5, 0] and tilt in [-6, 6] degrees, scaled by their features |
| AudioReactive.SilentChunk | src/common/reachy/audio_reactive.py:60-93 | a silent chunk after any non-negative history has amplitude 0 (NaN when empty) and beat strength 0; its frequency content is 0.5 up to 10 samples and 0 beyond |
| AudioReactive.SilentBeat | src/common/reachy/audio_reactive.py:73-78 | a chunk of energy 0 is never a beat, whatever the non-negative history before it |
| AudioReactive.AudioAnalyzer.constructor | src/common/reachy/audio_reactive.py:33-48 | an analyser starts with an empty energy history |
| AudioReactive.AudioAnalyzer.AnalyzeChunk | src/common/reachy/audio_reactive.py:50-93 | the chunk's energy is pushed onto the history, and the features are computed from the history before the call |
| AudioReactive.Current | src/common/reachy/audio_reactive.py:191-194 | the chunks accepted from a queue are a sub-list of it |
| AudioReactive.CurrentMembers | src/common/reachy/audio_reactive.py:191-194 | a chunk is accepted exactly when it carries the current generation |
| AudioReactive.StaleChunksDiscarded | src/common/reachy/audio_reactive.py:191-194 | chunks of older generations are all discarded |
| AudioReactive.PushAll | src/common/reachy/audio_reactive.py:198-200 | analysing chunks in order keeps the history bounded and non-negative |
| AudioReactive.MotionsOf | src/common/reachy/audio_reactive.py:198-210 | one offset per analysed chunk |
| AudioReactive.MotionsBounded | src/common/reachy/audio_reactive.py:217-237 | every offset handed to the callback is within the magnitude bounds |
| AudioReactive.MotionsPrefix | src/common/reachy/audio_reactive.py:185-210 | the k-th offset depends only on the chunks up to the k-th |
| AudioReactive.Step | src/common/reachy/audio_reactive.py:186-210 | a chunk of another generation changes nothing; an accepted one hands over one offset and sets the base timestamp |
| AudioReactive.Run | src/common/reachy/audio_reactive.py:185-213 | processing a run of chunks keeps the state well formed |
| AudioReactive.RunHistory | src/common/reachy/audio_reactive.py:185-213 | processing pushes exactly the energies of the accepted chunks, in order |
| AudioReactive.RunApplied | src/common/reachy/audio_reactive.py:185-213 | processing hands over exactly the offsets of the accepted chunks, after those already handed over |
| AudioReactive.RunBase | src/common/reachy/audio_reactive.py:195-196 | the base timestamp is the one already set, or else that of the first accepted chunk |
| AudioReactive.AudioReactiveMotion.constructor | src/common/reachy/audio_reactive.py:104-137 | empty queue, generation 0, no base timestamp, no thread, nothing applied |
| AudioReactive.AudioReactiveMotion.FeedAudio | src/common/reachy/audio_reactive.py:139-148 | the chunk joins the queue, tagged with the current generation; nothing else changes |
| AudioReactive.AudioReactiveMotion.Start | src/common/reachy/audio_reactive.py:150-163 | a no-op while the thread is alive; otherwise a new generation with no base timestamp, so no queued chunk is accepted |
| AudioReactive.AudioReactiveMotion.Stop | src/common/reachy/audio_reactive.py:165-179 | nothing if no thread was created; otherwise sets the stop flag and applies the zero offset |
| AudioReactive.AudioReactiveMotion.Reset | src/common/reachy/audio_reactive.py:239-252 | a new generation, no base timestamp and an empty queue |
| AudioReactive.AudioReactiveMotion.ProcessNext | src/common/reachy/audio_reactive.py:186-213 | dequeues one chunk and performs exactly one Step on the processing state |
| AudioReactive.AudioReactiveMotion.Pass | src/common/reachy/audio_reactive.py:186-210 | one pass of the processing loop extends the run by the next queued chunk and leaves the generation, flags and thread state alone |
| AudioReactive.AudioReactiveMotion.ProcessingLoop | src/common/reachy/audio_reactive.py:181-215 | processes a prefix of the queue as Run says; after `stop` nothing is processed and nothing applied, so stop's zero offset stays the last; a stop seen by a pass is recorded; the thread stays alive exactly when no pass saw the stop flag |
| AudioReactive.AudioReactiveMotion.Passes | src/common/reachy/audio_reactive.py:185-213 | the passes up to the first that sees the stop flag: a prefix of the queue is dequeued and taken as Run says, the flags are unchanged, and no earlier pass saw the flag |
| AudioReactive.FedBeforeStartDiscarded | src/common/reachy/audio_reactive.py:146-159 | a chunk fed before a start carries an old generation and is never analysed |
| SafeMotions.DegRadRoundTrip | src/common/reachy/safe_motions.py:164-167 | over exact reals, converting radians to degrees and back is the identity |
| SafeMotions.NewController | src/common/reachy/safe_motions.py:35-54 | a missing limit argument selects the class default; the velocity is kept |
| SafeMotions.DefaultController | src/common/reachy/safe_motions.py:22-33 | default limits: roll ±0.3, pitch ±0.5, yaw ±0.8, antennas ±3.14; velocity 1.0 |
| SafeMotions.ValidateHeadAngles | src/common/reachy/safe_motions.py:56-103 | valid exactly when there are no violations; violations are in roll, pitch, yaw order, and each is an axis whose angle in radians is outside its limits |
| SafeMotions.ValidateHeadFlagsExactly | src/common/reachy/safe_motions.py:74-100 | an axis is reported exactly when its angle in radians is outside its limits |
| SafeMotions.ValidateAntennaPositions | src/common/reachy/safe_motions.py:105-134 | flags exactly the antennas outside the limits, left before right; valid exactly when none is flagged |
| SafeMotions.ClampHeadWithinLimits | src/common/reachy/safe_motions.py:136-169 | over exact reals, clamped angles, read in radians, are within the limits, and an axis already inside keeps its value |
| SafeMotions.ClampThenValidate | src/common/reachy/safe_motions.py:136-169 | over exact reals, validating a clamped triple in the same units always succeeds |
| SafeMotions.ClampAntennaPositions | src/common/reachy/safe_motions.py:171-187 | each antenna is clipped independently: within the limits unchanged, outside them the violated bound |
| SafeMotions.CalculateSafeDuration | src/common/reachy/safe_motions.py:189-209 | raises exactly when the max velocity is 0; otherwise the larger of distance / max velocity and the minimum duration |
| SafeMotions.DefaultValidationExamples | src/common/reachy/safe_motions.py:56-134 | the default controller accepts the neutral pose and neutral antennas and rejects a pitch of 5 rad |
| EmotionDetector.ClassifyDecisionTree | src/common/reachy/emotion_detector.py:92-120 | each emotion is chosen exactly when its rule holds and no higher-priority rule does, with that rule's confidence |
| EmotionDetector.BoundaryValenceNeitherHappyNorSad | src/common/reachy/emotion_detector.py:109-117 | a valence of exactly 0.5 is never happy or sad |
| EmotionDetector.DetectFromFeatures | src/common/reachy/emotion_detector.py:58-90 | valence is the centroid over a quarter of the sample rate, capped at 1; tempo and energy pass through; the emotion is the classifier's |
| EmotionDetector.DetectExamples | src/common/reachy/emotion_detector.py:58-120 | fast and loud is energetic; slow, quiet and dark is sad; moderate and bright is happy |
| EmotionDetector.GetGestureForEmotion | src/common/reachy/emotion_detector.py:208-210 | the profile's gesture, never empty |
| EmotionDetector.GetDanceGestures | src/common/reachy/emotion_detector.py:212-214 | the profile's dance gestures, at least two |
| EmotionDetector.GetNoteRange | src/common/reachy/emotion_detector.py:216-218 | the profile's note range, a positive interval |
| EmotionDetector.GetMotionParams | src/common/reachy/emotion_detector.py:220-225 | exactly the keys intensity and speed, both positive |
| Config.EnvMappingCoversFields | src/common/core/config.py:71-79 | the environment mapping names seven distinct fields, and every field `from_env` sets is mapped |
| Config.Lower | src/common/core/config.py:86 | ASCII lowercasing, one character for one; other characters, which never form "true", "yes" or "1", are kept |
| Config.Set | src/common/core/config.py:90 | `setattr` changes the named field to the value and no other field |
| Config.FromEnv | src/common/core/config.py:59-92 | every field is its converted variable when set, else its default; the version, timeout and custom dict keep their defaults |
| Config.ToDict | src/common/core/config.py:94-111 | exactly the ten field names, each mapped to its field's value |
| Config.FromDict | src/common/core/config.py:40-56 | `AppConfig(**data)` rejects a key that is not a field; a missing key keeps its default |
| Config.ToDictRoundTrip | src/common/core/config.py:94-111 | loading a saved configuration gives it back |
| Config.EmptyEnvGivesDefaults | src/common/core/config.py:68-92 | with no variables set, every field keeps its default |
| Config.DefaultValues | src/common/core/config.py:18-38 | the dataclass defaults: app name "reachy-mini-app", log level "INFO", localhost only, no daemon, no simulator, no debug; `to_dict` reports the default app name |
| Config.ParseBoolExamples | src/common/core/config.py:85-86 | "TRUE", "Yes" and "1" are true; "0", "false", "on" and "" are false |
| ReachyRemix.FirstFailureFrom | src/apps/reachy-remix/reachy_remix.py:290-308 | the first failing move from a position on: every move before it succeeds, and it fails (or is the end) |
| ReachyRemix.FirstFailureIs | src/apps/reachy-remix/reachy_remix.py:290-310 | any position before which every move succeeds, and at which a move fails (or the end), is the first failure |
| ReachyRemix.RanCount | src/apps/reachy-remix/reachy_remix.py:253-257 | the moves whose bodies run are never more than the sequence |
| ReachyRemix.MotionEngine.constructor | src/apps/reachy-remix/reachy_remix.py:147-166 | demo mode exactly when no robot is given |
| ReachyRemix.MotionEngine.ExecuteMove | src/apps/reachy-remix/reachy_remix.py:241-258 | an unknown id raises "Unknown move: id" without running anything; a known move's body runs and its exception propagates; otherwise True |
| ReachyRemix.MotionEngine.GetMicroFeedback | src/apps/reachy-remix/reachy_remix.py:260-273 | a nod is requested exactly outside demo mode |
| ReachyRemix.MotionEngine.ExecuteSequence | src/apps/reachy-remix/reachy_remix.py:275-323 | the result reports the first failure; exactly the moves up to it run; nods are requested after each completed move but the last, when feedback is on outside demo mode |
| ReachyRemix.SuccessIffAllMovesRun | src/apps/reachy-remix/reachy_remix.py:290-323 | a sequence succeeds exactly when every move is registered and none raises, and then every move completes with no message |
| ReachyRemix.FailureReported | src/apps/reachy-remix/reachy_remix.py:302-308 | a failure reports the failing move's index as moves completed, and its exception (or "Unknown move: id") as the message |
| ReachyRemix.CompletedBounded | src/apps/reachy-remix/reachy_remix.py:285-310 | completed ≤ ran ≤ length, and at most one move runs without completing |
| ReachyRemix.FeedbackBetweenMoves | src/apps/reachy-remix/reachy_remix.py:285-314 | the nods a run of ExecuteSequence requests: one after each completed move when it stops at a failure, n - 1 for a complete run of n moves, never one after the last move |
| ReachyRemix.RegistryHasSixMoves | src/apps/reachy-remix/reachy_remix.py:159-166 | the registry holds six distinct moves, among them wave and pause |

## Left out

- Audio samples, waveforms and numpy arithmetic are left out: sine synthesis, harmonics, normalisation, envelopes applied to samples, and the int16 conversion. The model keeps the sample counts, durations and timings that the rest of the core depends on. Samples are unbounded integers, and floats are exact reals, so double rounding is not modelled (see the SafeMotions lines below).
- Threads, sleeps, `join` timeouts and locks are left out. Thread bodies are sequential calls. A stop from another thread is given as a parameter (a pass's stop flag, or the number of chunks sent before the stop is seen).
- The clock is a parameter.
- Logging is left out. So are callback and gesture exceptions that the source logs and swallows, since they do not change what is dispatched.
- `_play_builtin_move`, the SafeMotionController gesture methods and the robot wrapper are not part of this model; routing stops at the name of the target.
- `load_from_wav` is left out, because it is file I/O.
- `is_playing` is a plain read of the playing flag.
- The timestamps passed to the audio callback are left out; chunks are delivered without them.
- The output stream's own errors (the outer `except` of `_playback_loop`) are left out.
- AudioPlayer.Player.PlaybackLoop, AudioPlayer.Player.SimulatePlayback and AudioPlayer.Player.Play require a sample rate of at least 20 Hz. Below that, the chunk size is 0 and the source loops forever.
- AudioPlayer.Player.PlaybackLoop: a run's chunks are appended to the logs when the run ends, not one by one.
- AudioPlayer.Player.Play: a non-blocking play only records that the thread was started. Its run is a later PlaybackLoop call.
- AudioReactive: `hop_duration` and the latency sleep before a motion is applied are left out.
- AudioReactive: an exception while analysing a chunk is not modelled; the analysis here does not raise.
- TtsEngine.MockGenerate: the word-emphasis boost and the audio samples are left out. Only whether the audio synthesis raises is kept (MockAudioFails).
- Theme.IntBase16: models `int(s, 16)` with ASCII digits only. Python also accepts Unicode decimal digits (`int('１２', 16)` is 18), which the model rejects.
- Theme.ParseHexPairIsInt: the agreement is with the ASCII-digit model of `int(s, 16)`, so it does not cover Unicode decimal digits either.
- SafeMotions.DegRadRoundTrip: holds over exact reals only. In doubles, 0.8 rad comes back as 0.8000000000000002, and several whole degree values (such as 3 and 12) do not survive the trip.
- SafeMotions.ClampHeadWithinLimits: over exact reals. In doubles, the degrees path can read a clamped yaw of 0.8000000000000002 rad, and an in-range degree value can change on the trip.
- SafeMotions.ClampThenValidate: over exact reals. In doubles, `clamp_head_angles(0, 0, 90, degrees=True)` gives a yaw that `validate_head_angles(..., degrees=True)` rejects.
- Config.Lower: lowercases ASCII letters only. Python's `str.lower()` also maps other letters, and can lengthen a string ('İ' becomes two characters); no such string lowers to "true", "yes" or "1", so ParseBool's results are the same.
- TtsEngine.SpokenTextSynthesises: stated from 20 Hz on. Below 20 Hz the fade is empty and any non-empty audio raises.
- TtsEngine.MockGenerate: the sample rate is a natural number, so negative rates are not modelled.
- TtsEngine.CreateEngine: engine-specific keyword arguments are left out; each engine is built with its defaults.
- TtsEngine.EmotionEngine: the emotion song player is not part of this model; its songs are parameters of Generate.
- The `play_song` thread of the emotion engine, and its parsing of "emotion:pitch" sound names, are left out.
- EmotionDetector.DetectFromFeatures requires a non-zero sample rate. The source divides by it.
- `detect_from_audio` is left out, because it calls librosa.
- Config.FromDict also rejects a value of the wrong kind for its field. Python's dataclass constructor would store it, but the model's fields are typed. `from_file`'s file reading is left out.
- ReachyRemix: what a move body does is an oracle (it either returns or raises).
- ReachyRemix: the branch of `execute_sequence` for a move returning False cannot run, because `execute_move` returns True whenever it returns. The outer `except` is left out for the same reason.
- ReachyRemix: the inter-move sleep and the printing are left out.
- The theme preview's ANSI printing is left out; only `hex_to_rgb` and the grouping are modelled.
- A silent chunk longer than 10 samples gets frequency content 0 (0 over 1e-6, times 2), not the 0.5 that chunks of at most 10 samples get; see AudioReactive.SilentChunk.

## Findings

| source | as written | input that shows it | evidently intended | confidence | as-written member | corrected member |
|---|---|---|---|---|---|---|
| src/common/reachy/audio_player.py:111-114 | `play` without sounddevice calls `_simulate_playback`, and `_simulate_playback` never clears `_stop_event`; only the device path clears it (line 121) | a buffer of three 50 ms chunks, played simulated and stopped from another thread after the first chunk, then played again: the second play delivers no chunk | each play starts with the stop event clear, so the second play delivers all three chunks | not executed | AudioPlayer.StaleStopSilencesReplay | AudioPlayer.Player.Play |
