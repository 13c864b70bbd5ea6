/**
 * The rule-based mood classifier: a threshold rule over (valence, energy),
 * the per-mood target features used to ask for recommendations, and the
 * per-mood seed genres. Mood names are strings, as in the service's JSON;
 * a name outside the four labels falls back to a default entry.
 * Reals are exact rationals: nothing here speaks about floating-point rounding.
 */
module MoodClassifier {

  /** The four labels the classifier knows, in the order the classifier lists them. */
  const MoodLabels: seq<string> := ["Happy", "Sad", "Energetic", "Calm"]

  /** A label with the fixed confidence the rule assigns to it. */
  datatype Classification = Classification(mood: string, confidence: real)

  /** The confidence attached to each label. */
  function LabelConfidence(mood: string): real
  {
    match mood
    case "Happy" => 0.85
    case "Sad" => 0.80
    case "Energetic" => 0.82
    case _ => 0.78
  }

  /**
   * The threshold rule. The branches are tried in order, so each label's
   * region is what the earlier branches leave; the ensures clauses spell the
   * four regions out and show that they partition the plane.
   */
  function ClassifyMoodSimple(valence: real, energy: real): (r: Classification)
    ensures r.mood in MoodLabels
    ensures r.confidence == LabelConfidence(r.mood)
    ensures 0.78 <= r.confidence <= 0.85
    ensures r.mood == "Happy" <==> valence >= 0.6 && energy >= 0.6
    ensures r.mood == "Sad" <==> valence < 0.4 && energy < 0.4
    ensures r.mood == "Energetic" <==> energy >= 0.6 && valence < 0.6
    ensures r.mood == "Calm" <==> energy < 0.6 && (valence >= 0.4 || energy >= 0.4)
  {
    var mood :=
      if valence >= 0.6 && energy >= 0.6 then "Happy"
      else if valence < 0.4 && energy < 0.4 then "Sad"
      else if energy >= 0.6 then "Energetic"
      else "Calm";
    Classification(mood, LabelConfidence(mood))
  }

  /** Target audio features sent to the recommendation service for a mood. */
  datatype Targets = Targets(valence: real, energy: real, tempo: int)

  const CalmTargets := Targets(0.5, 0.4, 90)

  function GetMoodRecommendations(mood: string): (t: Targets)
    ensures mood !in MoodLabels ==> t == CalmTargets
    ensures 0.0 <= t.valence <= 1.0 && 0.0 <= t.energy <= 1.0
    ensures 80 <= t.tempo <= 140
  {
    match mood
    case "Happy" => Targets(0.8, 0.8, 120)
    case "Sad" => Targets(0.3, 0.3, 80)
    case "Energetic" => Targets(0.7, 0.9, 140)
    case _ => CalmTargets
  }

  /**
   * The targets of Happy, Sad and Calm lie in their own label's region, but
   * the Energetic targets (valence 0.7, energy 0.9) lie in the Happy region.
   */
  lemma TargetsClassification()
    ensures forall m :: m in ["Happy", "Sad", "Calm"] ==>
      var t := GetMoodRecommendations(m); ClassifyMoodSimple(t.valence, t.energy).mood == m
    ensures var t := GetMoodRecommendations("Energetic");
      ClassifyMoodSimple(t.valence, t.energy).mood == "Happy"
  {
  }

  /** Seed genres for a mood; unknown moods get `["pop"]`. */
  function GetSeedGenres(mood: string): (g: seq<string>)
    ensures |g| >= 1
    ensures mood !in MoodLabels ==> g == ["pop"]
    ensures forall k :: 0 <= k < |g| ==> g[k] in {"pop", "dance", "acoustic"}
    ensures mood == "Sad" ==> g == ["acoustic"]
  {
    match mood
    case "Happy" => ["pop", "dance"]
    case "Sad" => ["acoustic"]
    case "Energetic" => ["dance", "pop"]
    case "Calm" => ["acoustic", "pop"]
    case _ => ["pop"]
  }
}
