/** Emotion classification from audio features and the emotion-to-gesture
    lookup table (src/common/reachy/emotion_detector.py). */
module EmotionDetector {

  datatype Emotion = Happy | Sad | Energetic | Neutral

  datatype EmotionResult = EmotionResult(
    emotion: Emotion, confidence: real, tempo: real, energy: real, valence: real)

  // Thresholds set by EmotionDetector.__init__.
  const TempoSlow: real := 90.0
  const TempoFast: real := 130.0
  const EnergyLow: real := 0.3
  const EnergyHigh: real := 0.7
  const ValenceThreshold: real := 0.5

  function Min(a: real, b: real): real { if a <= b then a else b }

  predicate IsEnergetic(tempo: real, energy: real)
  {
    energy > EnergyHigh && tempo > TempoFast
  }

  predicate IsHappy(energy: real, valence: real)
  {
    valence > ValenceThreshold && energy > EnergyLow
  }

  predicate IsSad(energy: real, valence: real)
  {
    valence < ValenceThreshold && energy < EnergyHigh
  }

  /** `_classify_emotion`: the rules are tried in priority order
      ENERGETIC, HAPPY, SAD, and NEUTRAL is the fallback. */
  function ClassifyEmotion(tempo: real, energy: real, valence: real): (r: (Emotion, real))
  {
    if IsEnergetic(tempo, energy) then (Energetic, Min(energy, tempo / 180.0))
    else if IsHappy(energy, valence) then (Happy, (valence + energy) / 2.0)
    else if IsSad(energy, valence) then (Sad, (1.0 - valence + (1.0 - energy)) / 2.0)
    else (Neutral, 0.5)
  }

  /** Each emotion is chosen exactly when its rule holds and no rule of
      higher priority does, with the confidence of that rule. */
  lemma ClassifyDecisionTree(tempo: real, energy: real, valence: real)
    ensures var r := ClassifyEmotion(tempo, energy, valence);
      && (r.0 == Energetic <==> energy > 0.7 && tempo > 130.0)
      && (r.0 == Happy <==> !(energy > 0.7 && tempo > 130.0) && valence > 0.5 && energy > 0.3)
      && (r.0 == Sad <==> !(energy > 0.7 && tempo > 130.0) && !(valence > 0.5 && energy > 0.3)
                          && valence < 0.5 && energy < 0.7)
      && (r.0 == Energetic ==> r.1 == Min(energy, tempo / 180.0))
      && (r.0 == Happy ==> r.1 == (valence + energy) / 2.0)
      && (r.0 == Sad ==> r.1 == (2.0 - valence - energy) / 2.0)
      && (r.0 == Neutral ==> r.1 == 0.5)
  {
  }

  /** A valence of exactly 0.5 is never HAPPY or SAD. */
  lemma BoundaryValenceNeitherHappyNorSad(tempo: real, energy: real)
    ensures ClassifyEmotion(tempo, energy, 0.5).0 in {Energetic, Neutral}
  {
  }

  /** `detect_from_features`: valence is the spectral centroid relative to a
      quarter of the sample rate, capped at 1; tempo and energy pass through.
      A zero sample rate makes the source divide by zero, so it is excluded. */
  function DetectFromFeatures(tempo: real, energy: real, spectralCentroid: real, sampleRate: int)
    : (r: EmotionResult)
    requires sampleRate != 0
    ensures r.valence <= 1.0
    ensures r.valence == 1.0 || r.valence == spectralCentroid / (sampleRate as real / 4.0)
    ensures r.tempo == tempo && r.energy == energy
    ensures (r.emotion, r.confidence) == ClassifyEmotion(tempo, energy, r.valence)
  {
    var valence := Min(1.0, spectralCentroid / (sampleRate as real / 4.0));
    var (emotion, confidence) := ClassifyEmotion(tempo, energy, valence);
    EmotionResult(emotion, confidence, tempo, energy, valence)
  }

  /** The three feature sets exercised by the repository's demonstration
      script, at the default sample rate of 22050 Hz. */
  lemma DetectExamples()
    ensures DetectFromFeatures(150.0, 0.8, 4000.0, 22050).emotion == Energetic
    ensures DetectFromFeatures(70.0, 0.2, 1000.0, 22050).emotion == Sad
    ensures DetectFromFeatures(110.0, 0.6, 3500.0, 22050).emotion == Happy
  {
  }

  /** One row of EmotionGestureMapper's profile table. */
  datatype Profile = Profile(
    gesture: string,
    danceGestures: seq<string>,
    noteRange: (real, real),
    motionIntensity: real,
    speedMultiplier: real)

  function EmotionProfile(e: Emotion): Profile
  {
    match e
    case Happy => Profile("express_happy", ["singing_sway", "wave_antennas", "express_excited"],
                          (523.25, 783.99), 1.2, 1.3)
    case Sad => Profile("express_sad", ["nod_yes", "tilt_curious"], (261.63, 392.00), 0.6, 0.7)
    case Energetic => Profile("express_excited", ["singing_sway", "singing_lean_forward", "look_around"],
                              (392.00, 587.33), 1.5, 1.5)
    case Neutral => Profile("nod_yes", ["singing_sway", "tilt_curious"], (349.23, 523.25), 1.0, 1.0)
  }

  function GetGestureForEmotion(e: Emotion): (g: string)
    ensures g == EmotionProfile(e).gesture && |g| > 0
  {
    EmotionProfile(e).gesture
  }

  function GetDanceGestures(e: Emotion): (gs: seq<string>)
    ensures gs == EmotionProfile(e).danceGestures && |gs| >= 2
  {
    EmotionProfile(e).danceGestures
  }

  function GetNoteRange(e: Emotion): (r: (real, real))
    ensures r == EmotionProfile(e).noteRange
    ensures 0.0 < r.0 < r.1
  {
    EmotionProfile(e).noteRange
  }

  /** `get_motion_params`: the profile's intensity and speed multiplier,
      both positive. */
  function GetMotionParams(e: Emotion): (m: map<string, real>)
    ensures m.Keys == {"intensity", "speed"}
    ensures m["intensity"] == EmotionProfile(e).motionIntensity > 0.0
    ensures m["speed"] == EmotionProfile(e).speedMultiplier > 0.0
  {
    map["intensity" := EmotionProfile(e).motionIntensity, "speed" := EmotionProfile(e).speedMultiplier]
  }
}
