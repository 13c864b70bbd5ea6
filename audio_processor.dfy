/**
 * The pure parts of the audio processor: turning already extracted signal
 * features into a (valence, energy) estimate clamped to [0, 1], and choosing
 * the (speed, volume) modification for a remix from a per-mood table.
 * Feature extraction and the audio rewriting itself are outside this model.
 */
module AudioProcessor {
  import MoodClassifier

  /** The features the extractor reports for an uploaded file. */
  datatype Features = Features(
    tempo: real,
    spectralCentroid: real,
    mfccMean: real,
    mfccStd: real,
    zcr: real,
    energy: real,      // mean RMS of the signal
    chromaMean: real)

  function MaxReal(a: real, b: real): real { if a >= b then a else b }
  function MinReal(a: real, b: real): real { if a <= b then a else b }

  /** `min(1.0, max(0.0, x))`. */
  function Clamp01(x: real): (r: real)
    ensures 0.0 <= r <= 1.0
    ensures 0.0 <= x <= 1.0 ==> r == x
    ensures x < 0.0 ==> r == 0.0
    ensures x > 1.0 ==> r == 1.0
  {
    MinReal(1.0, MaxReal(0.0, x))
  }

  /** The valence expression before clamping: brightness and harmonic content, equally weighted. */
  function RawValence(f: Features): real
  {
    (f.spectralCentroid / 5000.0) * 0.5 + f.chromaMean * 0.5
  }

  /** The energy expression before clamping: loudness weighted 0.6, tempo weighted 0.4. */
  function RawEnergy(f: Features): real
  {
    (f.energy * 2.0) * 0.6 + (f.tempo / 200.0) * 0.4
  }

  /** Returns (valence, energy), each the raw expression clamped to [0, 1]. */
  function EstimateValenceEnergy(f: Features): (r: (real, real))
    ensures 0.0 <= r.0 <= 1.0 && 0.0 <= r.1 <= 1.0
    ensures 0.0 <= RawValence(f) <= 1.0 ==> r.0 == RawValence(f)
    ensures 0.0 <= RawEnergy(f) <= 1.0 ==> r.1 == RawEnergy(f)
    ensures RawValence(f) < 0.0 ==> r.0 == 0.0
    ensures RawValence(f) > 1.0 ==> r.0 == 1.0
    ensures RawEnergy(f) < 0.0 ==> r.1 == 0.0
    ensures RawEnergy(f) > 1.0 ==> r.1 == 1.0
  {
    (Clamp01(RawValence(f)), Clamp01(RawEnergy(f)))
  }

  /** The valence estimate depends on spectral centroid and chroma mean only. */
  lemma ValenceDependsOnlyOnCentroidAndChroma(f: Features, g: Features)
    requires f.spectralCentroid == g.spectralCentroid && f.chromaMean == g.chromaMean
    ensures EstimateValenceEnergy(f).0 == EstimateValenceEnergy(g).0
  {
  }

  /** The energy estimate depends on RMS energy and tempo only. */
  lemma EnergyDependsOnlyOnRmsAndTempo(f: Features, g: Features)
    requires f.energy == g.energy && f.tempo == g.tempo
    ensures EstimateValenceEnergy(f).1 == EstimateValenceEnergy(g).1
  {
  }

  /** With the other inputs fixed, energy does not decrease as tempo grows. */
  lemma EnergyMonotoneInTempo(f: Features, tempo: real)
    requires f.tempo <= tempo
    ensures EstimateValenceEnergy(f).1 <= EstimateValenceEnergy(f.(tempo := tempo)).1
  {
  }

  /** With the other inputs fixed, energy does not decrease as RMS energy grows. */
  lemma EnergyMonotoneInRms(f: Features, rms: real)
    requires f.energy <= rms
    ensures EstimateValenceEnergy(f).1 <= EstimateValenceEnergy(f.(energy := rms)).1
  {
  }

  /** With the other inputs fixed, valence does not decrease as spectral centroid grows. */
  lemma ValenceMonotoneInCentroid(f: Features, centroid: real)
    requires f.spectralCentroid <= centroid
    ensures EstimateValenceEnergy(f).0 <= EstimateValenceEnergy(f.(spectralCentroid := centroid)).0
  {
  }

  /** With the other inputs fixed, valence does not decrease as chroma mean grows. */
  lemma ValenceMonotoneInChroma(f: Features, chroma: real)
    requires f.chromaMean <= chroma
    ensures EstimateValenceEnergy(f).0 <= EstimateValenceEnergy(f.(chromaMean := chroma)).0
  {
  }

  /** Playback speed factor and gain change in dB applied to a remix. */
  datatype Modification = Modification(speed: real, volume: int)

  const DefaultModification := Modification(1.0, 0)

  /** The per-mood modification table with its default for unknown moods. */
  function RemixModification(mood: string): (m: Modification)
    ensures mood !in MoodClassifier.MoodLabels ==> m == DefaultModification
    ensures mood == "Happy" ==> m.speed == 1.0 && m.volume > 0
    ensures (mood == "Sad" || mood == "Calm") ==> m.speed < 1.0 && m.volume < 0
    ensures mood == "Energetic" ==> m.speed > 1.0 && m.volume > 0
    ensures m.speed == 1.0 <==> mood !in ["Sad", "Energetic", "Calm"]
    ensures 0.85 <= m.speed <= 1.15 && -2 <= m.volume <= 3
  {
    match mood
    case "Happy" => Modification(1.0, 2)
    case "Sad" => Modification(0.9, -2)
    case "Energetic" => Modification(1.15, 3)
    case "Calm" => Modification(0.85, -1)
    case _ => DefaultModification
  }
}
