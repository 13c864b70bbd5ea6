/**
 * The recommendation endpoint: collect candidate tracks from several
 * searches, keep those whose audio features pass the mood's strict check
 * (at most 20, no id twice, in candidate order), top them up from the
 * recommendation service when fewer than 15 pass, and format the answer.
 *
 * The music service is three parameters: `search(query, limit)` returns the
 * items of one search (`None` when the call raised), `lookup(id)` the audio
 * features of one track (`None` when they are missing or the call raised),
 * and `recommend(params)` the tracks the recommendation call returns
 * (`None` when it raised).
 */
module Recommend {
  import opened Common
  import MoodClassifier
  import App

  datatype Track = Track(
    id: string,
    name: string,
    artists: seq<string>,      // artist names, in the service's order
    albumName: string,
    albumImages: seq<string>,  // image urls of the album, largest first
    previewUrl: Option<string>,
    spotifyUrl: string)

  /** The audio features the music service reports for a track. */
  datatype AudioFeatures = AudioFeatures(valence: real, energy: real, tempo: real)

  /** Most tracks the strict filter keeps and the answer holds. */
  const MaxTracks: nat := 20
  /** Fewer verified tracks than this sends the request to the fallback. */
  const EnoughVerified: nat := 15
  /** Most seed tracks passed to the recommendation call. */
  const MaxSeeds: nat := 5
  /** Items asked of each candidate search, and of the seed search. */
  const SearchLimit: nat := 20
  const SeedSearchLimit: nat := 5

  function Ids(ts: seq<Track>): (ids: seq<string>)
    ensures |ids| == |ts|
    ensures forall k :: 0 <= k < |ts| ==> ids[k] == ts[k].id
  {
    seq(|ts|, k requires 0 <= k < |ts| => ts[k].id)
  }

  lemma IdsAppend(ts: seq<Track>, t: Track)
    ensures Ids(ts + [t]) == Ids(ts) + [t.id]
  {
  }

  /** No two tracks share an id. */
  predicate UniqueIds(ts: seq<Track>)
  {
    forall i, j :: 0 <= i < j < |ts| ==> ts[i].id != ts[j].id
  }

  // ---------------------------------------------------------------------
  // Per-mood tables
  // ---------------------------------------------------------------------

  /**
   * The strict acceptance check for a mood; `None` for a mood with no entry,
   * where looking up the check raises.
   */
  function StrictCheck(mood: string, valence: real, energy: real): (r: Option<bool>)
    ensures r.Some? <==> mood in MoodClassifier.MoodLabels
  {
    match mood
    case "Happy" => Some(valence >= 0.50 && energy >= 0.50)
    case "Sad" => Some(valence <= 0.50 && energy <= 0.50)
    case "Energetic" => Some(energy >= 0.65)
    case "Calm" => Some(energy <= 0.60 && 0.30 <= valence <= 0.70)
    case _ => None
  }

  /**
   * Every point the classifier labels Happy or Sad passes that mood's strict
   * check. For Energetic and Calm the strict check and the label's region are
   * incomparable: each holds points the other does not.
   */
  lemma StrictCheckVersusClassifier(valence: real, energy: real)
    ensures MoodClassifier.ClassifyMoodSimple(valence, energy).mood == "Happy" ==>
              StrictCheck("Happy", valence, energy) == Some(true)
    ensures MoodClassifier.ClassifyMoodSimple(valence, energy).mood == "Sad" ==>
              StrictCheck("Sad", valence, energy) == Some(true)
    // labelled Energetic, rejected by the strict Energetic check
    ensures MoodClassifier.ClassifyMoodSimple(0.5, 0.6).mood == "Energetic" &&
            StrictCheck("Energetic", 0.5, 0.6) == Some(false)
    // accepted by the strict Energetic check, labelled Happy
    ensures MoodClassifier.ClassifyMoodSimple(0.9, 0.9).mood == "Happy" &&
            StrictCheck("Energetic", 0.9, 0.9) == Some(true)
    // labelled Calm, rejected by the strict Calm check
    ensures MoodClassifier.ClassifyMoodSimple(0.9, 0.5).mood == "Calm" &&
            StrictCheck("Calm", 0.9, 0.5) == Some(false)
    // accepted by the strict Calm check, labelled Sad and Energetic
    ensures MoodClassifier.ClassifyMoodSimple(0.3, 0.1).mood == "Sad" &&
            StrictCheck("Calm", 0.3, 0.1) == Some(true)
    ensures MoodClassifier.ClassifyMoodSimple(0.5, 0.6).mood == "Energetic" &&
            StrictCheck("Calm", 0.5, 0.6) == Some(true)
  {
  }

  /** Search phrases per mood; an unknown mood searches for "bollywood" alone. */
  function SearchQueries(mood: string): (qs: seq<string>)
    ensures |qs| >= 1
    ensures mood !in MoodClassifier.MoodLabels ==> qs == ["bollywood"]
    ensures mood in MoodClassifier.MoodLabels ==> |qs| == 4
  {
    match mood
    case "Happy" => ["bollywood happy cheerful songs", "upbeat hindi party music",
                     "feel good bollywood dance", "positive energy hindi songs"]
    case "Sad" => ["sad bollywood heartbreak songs", "emotional slow hindi songs",
                   "arijit singh sad songs", "melancholic romantic hindi"]
    case "Energetic" => ["high energy bollywood dance", "workout hindi gym songs",
                         "fast tempo party bollywood", "energetic dance hindi music"]
    case "Calm" => ["peaceful bollywood romantic", "soft acoustic hindi songs",
                    "soothing relaxing bollywood", "calm unplugged hindi music"]
    case _ => ["bollywood"]
  }

  // ---------------------------------------------------------------------
  // Collecting candidates
  // ---------------------------------------------------------------------

  /** The items of one search, or none when it raised. */
  function ItemsOf(result: Option<seq<Track>>): seq<Track>
  {
    match result
    case None => []
    case Some(items) => items
  }

  /** All search results, query by query, in order; a failed search adds nothing. */
  function SearchAll(queries: seq<string>, search: (string, nat) -> Option<seq<Track>>): (candidates: seq<Track>)
    ensures (forall k :: 0 <= k < |queries| ==> search(queries[k], SearchLimit).None?) ==> candidates == []
    ensures |queries| == 1 ==> candidates == ItemsOf(search(queries[0], SearchLimit))
    decreases |queries|
  {
    if queries == [] then []
    else SearchAll(queries[..|queries| - 1], search) + ItemsOf(search(queries[|queries| - 1], SearchLimit))
  }

  /** A track is a candidate exactly when some query's search returned it. */
  lemma {:induction false} SearchAllMembers(queries: seq<string>, search: (string, nat) -> Option<seq<Track>>, t: Track)
    ensures t in SearchAll(queries, search) <==>
              exists k :: 0 <= k < |queries| && t in ItemsOf(search(queries[k], SearchLimit))
    decreases |queries|
  {
    if queries != [] {
      var n := |queries| - 1;
      var init := queries[..n];
      var last := ItemsOf(search(queries[n], SearchLimit));
      assert SearchAll(queries, search) == SearchAll(init, search) + last;
      SearchAllMembers(init, search, t);
      if t in SearchAll(queries, search) && t !in last {
        var k :| 0 <= k < |init| && t in ItemsOf(search(init[k], SearchLimit));
        assert queries[k] == init[k];
      }
      if exists k :: 0 <= k < |queries| && t in ItemsOf(search(queries[k], SearchLimit)) {
        var k :| 0 <= k < |queries| && t in ItemsOf(search(queries[k], SearchLimit));
        if k < n {
          assert init[k] == queries[k];
        }
      }
    }
  }

  method CollectCandidates(queries: seq<string>, search: (string, nat) -> Option<seq<Track>>)
    returns (candidates: seq<Track>)
    ensures candidates == SearchAll(queries, search)
  {
    candidates := [];
    for i := 0 to |queries|
      invariant candidates == SearchAll(queries[..i], search)
    {
      assert queries[..i + 1][..i] == queries[..i];
      match search(queries[i], SearchLimit) {
        case None =>
        case Some(items) =>
          candidates := candidates + items;
      }
    }
    assert queries[..|queries|] == queries;
  }

  // ---------------------------------------------------------------------
  // The strict filter
  // ---------------------------------------------------------------------

  /** The filter loop's variables: the kept tracks and the two counters. */
  datatype FilterState = FilterState(verified: seq<Track>, checked: nat, rejected: nat)

  /** A track passes when its features are known and the mood's check holds of them. */
  function Accepts(mood: string, lookup: string -> Option<AudioFeatures>, t: Track): (r: bool)
    ensures r ==> lookup(t.id).Some? && mood in MoodClassifier.MoodLabels
    ensures lookup(t.id).None? ==> !r
  {
    match lookup(t.id)
    case None => false
    case Some(f) => StrictCheck(mood, f.valence, f.energy) == Some(true)
  }

  /** One candidate: nothing once 20 are kept or the id is kept already; otherwise check it. */
  function FilterStep(mood: string, lookup: string -> Option<AudioFeatures>, st: FilterState, t: Track): (next: FilterState)
    ensures next.verified == st.verified || next.verified == st.verified + [t]
    ensures next.verified == st.verified + [t] <==>
              |st.verified| < MaxTracks && t.id !in Ids(st.verified) && Accepts(mood, lookup, t)
    ensures next.checked - next.rejected == st.checked - st.rejected + (|next.verified| - |st.verified|)
    ensures next.checked == st.checked + (if |st.verified| < MaxTracks && t.id !in Ids(st.verified) then 1 else 0)
  {
    if |st.verified| >= MaxTracks then st
    else if t.id in Ids(st.verified) then st
    else if Accepts(mood, lookup, t) then FilterState(st.verified + [t], st.checked + 1, st.rejected)
    else FilterState(st.verified, st.checked + 1, st.rejected + 1)
  }

  /** The state after the filter has seen every candidate, in order. */
  function StrictFilter(mood: string, lookup: string -> Option<AudioFeatures>, candidates: seq<Track>): (st: FilterState)
    ensures |st.verified| <= MaxTracks
    ensures st.checked == |st.verified| + st.rejected
    ensures st.checked <= |candidates|
    decreases |candidates|
  {
    if candidates == [] then FilterState([], 0, 0)
    else FilterStep(mood, lookup, StrictFilter(mood, lookup, candidates[..|candidates| - 1]), candidates[|candidates| - 1])
  }

  /**
   * The kept tracks have distinct ids, keep the candidates' order, and each
   * passed the mood's check.
   */
  lemma {:induction false} StrictFilterVerified(mood: string, lookup: string -> Option<AudioFeatures>, candidates: seq<Track>)
    ensures var v := StrictFilter(mood, lookup, candidates).verified;
      && UniqueIds(v)
      && IsSubsequence(v, candidates)
      && forall t :: t in v ==> Accepts(mood, lookup, t)
    decreases |candidates|
  {
    if candidates != [] {
      var n := |candidates| - 1;
      var init := candidates[..n];
      var t := candidates[n];
      StrictFilterVerified(mood, lookup, init);
      var prev := StrictFilter(mood, lookup, init).verified;
      var v := StrictFilter(mood, lookup, candidates).verified;
      assert candidates == init + [t];
      if v == prev {
        SubsequenceExtend(prev, init, t);
      } else {
        assert v == prev + [t] && t.id !in Ids(prev) && Accepts(mood, lookup, t);
        SubsequenceAppendBoth(prev, init, t);
        assert UniqueIds(v) by {
          forall i, j | 0 <= i < j < |v|
            ensures v[i].id != v[j].id
          {
            if j == |prev| {
              assert Ids(prev)[i] == v[i].id;
            }
          }
        }
      }
    }
  }

  /** The candidates that pass the mood's check, in order, repeats included. */
  function Passing(mood: string, lookup: string -> Option<AudioFeatures>, candidates: seq<Track>): (p: seq<Track>)
    ensures forall t :: t in p <==> t in candidates && Accepts(mood, lookup, t)
    decreases |candidates|
  {
    if candidates == [] then []
    else
      var init := candidates[..|candidates| - 1];
      var t := candidates[|candidates| - 1];
      assert candidates == init + [t];
      Passing(mood, lookup, init) + (if Accepts(mood, lookup, t) then [t] else [])
  }

  /**
   * The kept tracks are exactly the first 20 distinct-id tracks among the
   * passing candidates: the filter drops no passing track before the cap.
   */
  lemma {:induction false} StrictFilterReference(mood: string, lookup: string -> Option<AudioFeatures>, candidates: seq<Track>)
    ensures StrictFilter(mood, lookup, candidates).verified == Take(FirstOccurrences(Passing(mood, lookup, candidates)), MaxTracks)
    decreases |candidates|
  {
    if candidates != [] {
      var n := |candidates| - 1;
      var init := candidates[..n];
      var t := candidates[n];
      StrictFilterReference(mood, lookup, init);
      assert candidates == init + [t];
      var u := FirstOccurrences(Passing(mood, lookup, init));
      FirstOccurrencesOfPassingSnoc(mood, lookup, init, t);
      FilterStepFollowsReference(mood, lookup, StrictFilter(mood, lookup, init), t, u);
    }
  }

  /** One filter step keeps the kept tracks equal to the first 20 of the reference. */
  lemma FilterStepFollowsReference(mood: string, lookup: string -> Option<AudioFeatures>, st: FilterState, t: Track, u: seq<Track>)
    requires st.verified == Take(u, MaxTracks)
    ensures FilterStep(mood, lookup, st, t).verified ==
              Take(if Accepts(mood, lookup, t) && t.id !in Ids(u) then u + [t] else u, MaxTracks)
  {
    if |st.verified| >= MaxTracks {
      TakeAtCap(u, t);
    } else {
      assert st.verified == u;
    }
  }

  /** One more candidate adds it to the reference exactly when it passes and its id is new. */
  lemma FirstOccurrencesOfPassingSnoc(mood: string, lookup: string -> Option<AudioFeatures>, init: seq<Track>, t: Track)
    ensures var u := FirstOccurrences(Passing(mood, lookup, init));
      FirstOccurrences(Passing(mood, lookup, init + [t])) ==
        if Accepts(mood, lookup, t) && t.id !in Ids(u) then u + [t] else u
  {
    var p := Passing(mood, lookup, init);
    assert (init + [t])[..|init|] == init;
    if Accepts(mood, lookup, t) {
      assert Passing(mood, lookup, init + [t]) == p + [t];
      FirstOccurrencesSnoc(p, t);
    } else {
      assert Passing(mood, lookup, init + [t]) == p;
    }
  }

  /** Appending a track adds it to the first occurrences exactly when its id is new. */
  lemma FirstOccurrencesSnoc(ts: seq<Track>, t: Track)
    ensures FirstOccurrences(ts + [t]) ==
              if t.id in Ids(FirstOccurrences(ts)) then FirstOccurrences(ts) else FirstOccurrences(ts) + [t]
  {
    assert (ts + [t])[..|ts|] == ts;
  }

  /** A list already at the cap takes the same 20 after one more element. */
  lemma TakeAtCap(u: seq<Track>, t: Track)
    requires |u| >= MaxTracks
    ensures Take(u + [t], MaxTracks) == Take(u, MaxTracks)
  {
    assert (u + [t])[..MaxTracks] == u[..MaxTracks];
  }

  /** Short of the cap, every passing candidate's id is among the kept tracks. */
  lemma StrictFilterKeepsPassing(mood: string, lookup: string -> Option<AudioFeatures>, candidates: seq<Track>)
    ensures var v := StrictFilter(mood, lookup, candidates).verified;
      |v| < MaxTracks ==> forall c :: c in candidates && Accepts(mood, lookup, c) ==> c.id in Ids(v)
  {
    var v := StrictFilter(mood, lookup, candidates).verified;
    var p := Passing(mood, lookup, candidates);
    StrictFilterReference(mood, lookup, candidates);
    if |v| < MaxTracks {
      assert v == FirstOccurrences(p);
      forall c | c in candidates && Accepts(mood, lookup, c)
        ensures c.id in Ids(v)
      {
        var k :| 0 <= k < |p| && p[k] == c;
        assert Ids(p)[k] == c.id;
      }
    }
  }

  /** A mood without criteria never keeps a track: every checked candidate is rejected. */
  lemma {:induction false} StrictFilterUnknownMood(mood: string, lookup: string -> Option<AudioFeatures>, candidates: seq<Track>)
    requires mood !in MoodClassifier.MoodLabels
    ensures StrictFilter(mood, lookup, candidates).verified == []
    ensures StrictFilter(mood, lookup, candidates).rejected == StrictFilter(mood, lookup, candidates).checked
    decreases |candidates|
  {
    if candidates != [] {
      StrictFilterUnknownMood(mood, lookup, candidates[..|candidates| - 1]);
    }
  }

  /** With at most 20 candidates of distinct ids, the cap is never reached and every candidate is checked. */
  lemma {:induction false} StrictFilterChecksAll(mood: string, lookup: string -> Option<AudioFeatures>, candidates: seq<Track>)
    requires UniqueIds(candidates) && |candidates| <= MaxTracks
    ensures StrictFilter(mood, lookup, candidates).checked == |candidates|
    decreases |candidates|
  {
    if candidates != [] {
      var n := |candidates| - 1;
      var init := candidates[..n];
      StrictFilterChecksAll(mood, lookup, init);
      StrictFilterVerified(mood, lookup, init);
      var prev := StrictFilter(mood, lookup, init);
      SubsequenceMembers(prev.verified, init);
      assert candidates[n].id !in Ids(prev.verified) by {
        forall k | 0 <= k < |prev.verified|
          ensures prev.verified[k].id != candidates[n].id
        {
          assert prev.verified[k] in init;
          var j :| 0 <= j < n && init[j] == prev.verified[k];
          assert candidates[j] == init[j];
        }
      }
    }
  }

  /** Once 20 tracks are kept, the remaining candidates change nothing. */
  lemma {:induction false} StrictFilterCapped(mood: string, lookup: string -> Option<AudioFeatures>, candidates: seq<Track>, i: nat)
    requires i <= |candidates|
    requires |StrictFilter(mood, lookup, candidates[..i]).verified| >= MaxTracks
    ensures StrictFilter(mood, lookup, candidates) == StrictFilter(mood, lookup, candidates[..i])
    decreases |candidates|
  {
    if i < |candidates| {
      var n := |candidates| - 1;
      assert candidates[..n][..i] == candidates[..i];
      StrictFilterCapped(mood, lookup, candidates[..n], i);
    } else {
      assert candidates[..i] == candidates;
    }
  }

  /** The filter loop: stops at 20 kept tracks, skips ids already kept, and counts what it checks and rejects. */
  method FilterCandidates(mood: string, lookup: string -> Option<AudioFeatures>, candidates: seq<Track>)
    returns (verified: seq<Track>, checked: nat, rejected: nat)
    ensures FilterState(verified, checked, rejected) == StrictFilter(mood, lookup, candidates)
  {
    verified, checked, rejected := [], 0, 0;
    var i := 0;
    while i < |candidates|
      invariant 0 <= i <= |candidates|
      invariant FilterState(verified, checked, rejected) == StrictFilter(mood, lookup, candidates[..i])
    {
      assert candidates[..i + 1][..i] == candidates[..i];
      if |verified| >= MaxTracks {
        StrictFilterCapped(mood, lookup, candidates, i);
        return;
      }
      var track := candidates[i];
      if track.id in Ids(verified) {
        i := i + 1;
        continue;
      }
      checked := checked + 1;
      match lookup(track.id) {
        case None =>
          rejected := rejected + 1;
        case Some(features) =>
          var passes := StrictCheck(mood, features.valence, features.energy);
          if passes == Some(true) {
            verified := verified + [track];
          } else {
            rejected := rejected + 1;
          }
      }
      i := i + 1;
    }
    assert candidates[..i] == candidates;
  }

  // ---------------------------------------------------------------------
  // Deduplication by id
  // ---------------------------------------------------------------------

  /** The first track with each id, in order of first appearance. */
  function FirstOccurrences(ts: seq<Track>): (u: seq<Track>)
    ensures UniqueIds(u)
    ensures |u| <= |ts|
    ensures forall id :: id in Ids(u) <==> id in Ids(ts)
    decreases |ts|
  {
    if ts == [] then []
    else
      var init := ts[..|ts| - 1];
      var t := ts[|ts| - 1];
      var u := FirstOccurrences(init);
      IdsAppend(init, t);
      assert ts == init + [t];
      if t.id in Ids(u) then u
      else
        IdsAppend(u, t);
        u + [t]
  }

  /** The result keeps the input's order and holds every track that was the first with its id. */
  lemma {:induction false} FirstOccurrencesKeepsFirsts(ts: seq<Track>)
    ensures IsSubsequence(FirstOccurrences(ts), ts)
    ensures forall j :: 0 <= j < |ts| && ts[j].id !in Ids(ts[..j]) ==> ts[j] in FirstOccurrences(ts)
    decreases |ts|
  {
    if ts != [] {
      var n := |ts| - 1;
      var init := ts[..n];
      var t := ts[n];
      FirstOccurrencesKeepsFirsts(init);
      var u := FirstOccurrences(init);
      assert ts == init + [t];
      SubsequenceExtend(u, init, t);
      if t.id !in Ids(u) {
        SubsequenceAppendBoth(u, init, t);
      }
      forall j | 0 <= j < |ts| && ts[j].id !in Ids(ts[..j])
        ensures ts[j] in FirstOccurrences(ts)
      {
        if j < n {
          assert init[..j] == ts[..j];
        } else {
          assert ts[..j] == init;
        }
      }
    }
  }

  /** A list whose ids are already distinct is left as it is. */
  lemma {:induction false} FirstOccurrencesOfUnique(ts: seq<Track>)
    requires UniqueIds(ts)
    ensures FirstOccurrences(ts) == ts
    decreases |ts|
  {
    if ts != [] {
      var n := |ts| - 1;
      FirstOccurrencesOfUnique(ts[..n]);
      assert ts[n].id !in Ids(ts[..n]);
      assert ts[..n] + [ts[n]] == ts;
    }
  }

  /** Appending tracks only appends to the result. */
  lemma {:induction false} FirstOccurrencesPrefix(xs: seq<Track>, ys: seq<Track>)
    ensures FirstOccurrences(xs) <= FirstOccurrences(xs + ys)
    decreases |ys|
  {
    if ys == [] {
      assert xs + ys == xs;
    } else {
      var m := |ys| - 1;
      assert (xs + ys)[..|xs + ys| - 1] == xs + ys[..m];
      FirstOccurrencesPrefix(xs, ys[..m]);
    }
  }

  /** The first occurrences are drawn from the input, and there is one unless the input is empty. */
  lemma FirstOccurrencesMembers(ts: seq<Track>)
    ensures forall t :: t in FirstOccurrences(ts) ==> t in ts
    ensures FirstOccurrences(ts) == [] <==> ts == []
    ensures forall t :: t in ts ==> t.id in Ids(FirstOccurrences(ts))
  {
    forall t | t in ts
      ensures t.id in Ids(FirstOccurrences(ts))
    {
      var k :| 0 <= k < |ts| && ts[k] == t;
      assert Ids(ts)[k] == t.id;
    }
    FirstOccurrencesKeepsFirsts(ts);
    SubsequenceMembers(FirstOccurrences(ts), ts);
    if ts != [] {
      assert Ids(ts)[0] == ts[0].id;
      assert ts[0].id in Ids(FirstOccurrences(ts));
    }
  }

  /** The deduplication loop with its `seen` set of ids. */
  method DedupById(all: seq<Track>) returns (unique: seq<Track>)
    ensures unique == FirstOccurrences(all)
  {
    var seen: set<string> := {};
    unique := [];
    for i := 0 to |all|
      invariant unique == FirstOccurrences(all[..i])
      invariant forall id :: id in seen <==> id in Ids(unique)
    {
      assert all[..i + 1][..i] == all[..i];
      var track := all[i];
      if track.id !in seen {
        seen := seen + {track.id};
        IdsAppend(unique, track);
        unique := unique + [track];
      }
    }
    assert all[..|all|] == all;
  }

  // ---------------------------------------------------------------------
  // The fallback
  // ---------------------------------------------------------------------

  /** The arguments of the recommendation call; the bounds are `None` when not sent. */
  datatype RecParams = RecParams(
    seedTracks: seq<string>,
    targetValence: real,
    targetEnergy: real,
    targetTempo: int,
    limit: nat,
    minValence: Option<real>,
    maxValence: Option<real>,
    minEnergy: Option<real>,
    maxEnergy: Option<real>)

  function BuildRecParams(mood: string, seeds: seq<string>): (p: RecParams)
    ensures p.seedTracks == seeds && p.limit == MaxTracks
    ensures var t := MoodClassifier.GetMoodRecommendations(mood);
      p.targetValence == t.valence && p.targetEnergy == t.energy && p.targetTempo == t.tempo
    ensures mood !in MoodClassifier.MoodLabels ==>
      p.minValence.None? && p.maxValence.None? && p.minEnergy.None? && p.maxEnergy.None?
  {
    var t := MoodClassifier.GetMoodRecommendations(mood);
    var p := RecParams(seeds, t.valence, t.energy, t.tempo, MaxTracks, None, None, None, None);
    match mood
    case "Happy" => p.(minValence := Some(0.50), minEnergy := Some(0.50))
    case "Sad" => p.(maxValence := Some(0.50), maxEnergy := Some(0.50))
    case "Energetic" => p.(minEnergy := Some(0.65))
    case "Calm" => p.(maxEnergy := Some(0.60), minValence := Some(0.30), maxValence := Some(0.70))
    case _ => p
  }

  /** A (valence, energy) pair within the bounds the call sends. */
  predicate WithinBounds(p: RecParams, valence: real, energy: real)
  {
    && (p.minValence.Some? ==> valence >= p.minValence.value)
    && (p.maxValence.Some? ==> valence <= p.maxValence.value)
    && (p.minEnergy.Some? ==> energy >= p.minEnergy.value)
    && (p.maxEnergy.Some? ==> energy <= p.maxEnergy.value)
  }

  /** For every known mood the bounds sent to the service are exactly the strict check. */
  lemma RecParamsMatchStrictCheck(mood: string, seeds: seq<string>, valence: real, energy: real)
    requires mood in MoodClassifier.MoodLabels
    ensures WithinBounds(BuildRecParams(mood, seeds), valence, energy) <==> StrictCheck(mood, valence, energy) == Some(true)
  {
  }

  /**
   * The seed ids: the first five kept tracks when any were kept, otherwise
   * the first five items of a new search for the first query (`None` when
   * that search raised).
   */
  function SeedIds(verified: seq<Track>, firstQuery: string, search: (string, nat) -> Option<seq<Track>>): (seeds: Option<seq<string>>)
    ensures seeds.Some? ==> |seeds.value| <= MaxSeeds
    ensures verified != [] ==>
      && seeds.Some?
      && |seeds.value| == Min(|verified|, MaxSeeds)
      && forall k :: 0 <= k < |seeds.value| ==> seeds.value[k] == verified[k].id
    ensures verified == [] ==> (seeds.Some? <==> search(firstQuery, SeedSearchLimit).Some?)
    ensures verified == [] && search(firstQuery, SeedSearchLimit).Some? ==>
      var items := search(firstQuery, SeedSearchLimit).value;
      && |seeds.value| == Min(|items|, MaxSeeds)
      && forall k :: 0 <= k < |seeds.value| ==> seeds.value[k] == items[k].id
  {
    if verified != [] then Some(Take(Ids(verified), MaxSeeds))
    else
      match search(firstQuery, SeedSearchLimit)
      case None => None
      case Some(items) => Some(Take(Ids(items), MaxSeeds))
  }

  /** Kept tracks first, then the service's, first occurrence of each id, at most 20. */
  function MergeTracks(verified: seq<Track>, apiTracks: seq<Track>): (m: seq<Track>)
    ensures |m| <= MaxTracks
    ensures m == [] <==> verified == [] && apiTracks == []
    ensures |m| < MaxTracks ==> forall t :: t in verified + apiTracks ==> t.id in Ids(m)
    ensures forall t :: t in m ==> t in verified || t in apiTracks
  {
    var all := verified + apiTracks;
    FirstOccurrencesMembers(all);
    TakeMembers(FirstOccurrences(all), MaxTracks);
    Take(FirstOccurrences(all), MaxTracks)
  }

  /** The merged list has distinct ids, at most 20 entries, and starts with the kept tracks. */
  lemma MergeTracksKeepsVerified(verified: seq<Track>, apiTracks: seq<Track>)
    requires UniqueIds(verified) && |verified| <= MaxTracks
    ensures var m := MergeTracks(verified, apiTracks);
      && UniqueIds(m)
      && |m| <= MaxTracks
      && |verified| <= |m|
      && m[..|verified|] == verified
  {
    var u := FirstOccurrences(verified + apiTracks);
    FirstOccurrencesOfUnique(verified);
    FirstOccurrencesPrefix(verified, apiTracks);
    assert verified <= u;
    var m := MergeTracks(verified, apiTracks);
    assert |m| == Min(|u|, MaxTracks);
    assert forall k :: 0 <= k < |m| ==> m[k] == u[k];
    assert m[..|verified|] == verified by {
      forall k | 0 <= k < |verified|
        ensures m[k] == verified[k]
      {
        assert m[k] == u[k];
      }
    }
    assert UniqueIds(m) by {
      forall i, j | 0 <= i < j < |m|
        ensures m[i].id != m[j].id
      {
        assert m[i] == u[i] && m[j] == u[j];
      }
    }
  }

  /** What is used when the fallback raised: the kept tracks, or else the first 20 candidates. */
  function LastResort(verified: seq<Track>, candidates: seq<Track>): (tracks: seq<Track>)
    ensures |tracks| <= MaxTracks
    ensures verified != [] ==> tracks <= verified
    ensures verified == [] ==> tracks <= candidates
    ensures verified != [] ==> |tracks| == Min(|verified|, MaxTracks)
    ensures verified == [] ==> |tracks| == Min(|candidates|, MaxTracks)
    ensures tracks == [] <==> verified == [] && candidates == []
  {
    if verified != [] then Take(verified, MaxTracks) else Take(candidates, MaxTracks)
  }

  /** The tracks the recommendation call returns, or `None` when it or the seed search raised. */
  function FallbackTracks(mood: string, queries: seq<string>, verified: seq<Track>,
                          search: (string, nat) -> Option<seq<Track>>,
                          recommend: RecParams -> Option<seq<Track>>): Option<seq<Track>>
    requires |queries| >= 1
  {
    match SeedIds(verified, queries[0], search)
    case None => None
    case Some(seeds) => recommend(BuildRecParams(mood, seeds))
  }

  /** The final track list. */
  function SelectTracks(mood: string, queries: seq<string>, candidates: seq<Track>, verified: seq<Track>,
                        search: (string, nat) -> Option<seq<Track>>,
                        recommend: RecParams -> Option<seq<Track>>): (tracks: seq<Track>)
    requires |queries| >= 1
    ensures |tracks| <= MaxTracks
    ensures |verified| >= EnoughVerified ==> tracks == Take(verified, MaxTracks)
    ensures verified != [] ==> tracks != []
    ensures forall t :: t in tracks ==>
              || t in verified || t in candidates
              || (var api := FallbackTracks(mood, queries, verified, search, recommend); api.Some? && t in api.value)
  {
    if |verified| >= EnoughVerified then Take(verified, MaxTracks)
    else
      match FallbackTracks(mood, queries, verified, search, recommend)
      case None => LastResort(verified, candidates)
      case Some(apiTracks) => MergeTracks(verified, apiTracks)
  }

  /** The fallback was needed and one of its two service calls raised. */
  predicate FallbackFailed(mood: string, queries: seq<string>, verified: seq<Track>,
                           search: (string, nat) -> Option<seq<Track>>,
                           recommend: RecParams -> Option<seq<Track>>)
    requires |queries| >= 1
  {
    |verified| < EnoughVerified && FallbackTracks(mood, queries, verified, search, recommend).None?
  }

  /**
   * Unless the fallback failed, the final list has distinct ids and starts
   * with every kept track; with 15 or more kept tracks it is exactly them.
   */
  lemma SelectTracksKeepsVerified(mood: string, queries: seq<string>, candidates: seq<Track>, verified: seq<Track>,
                                  search: (string, nat) -> Option<seq<Track>>,
                                  recommend: RecParams -> Option<seq<Track>>)
    requires |queries| >= 1
    requires UniqueIds(verified) && |verified| <= MaxTracks
    requires !FallbackFailed(mood, queries, verified, search, recommend)
    ensures var tracks := SelectTracks(mood, queries, candidates, verified, search, recommend);
      && UniqueIds(tracks)
      && |verified| <= |tracks|
      && tracks[..|verified|] == verified
      && (|verified| >= EnoughVerified ==> tracks == verified)
  {
    if |verified| < EnoughVerified {
      MergeTracksKeepsVerified(verified, FallbackTracks(mood, queries, verified, search, recommend).value);
    }
  }

  /**
   * When nothing was kept and the seed search raises, the first 20 candidates
   * are answered as they are, so a track found by all four searches appears
   * four times.
   */
  lemma LastResortCanRepeatIds(t: Track, search: (string, nat) -> Option<seq<Track>>,
                               lookup: string -> Option<AudioFeatures>,
                               recommend: RecParams -> Option<seq<Track>>)
    requires forall q :: search(q, SearchLimit) == Some([t])
    requires forall q :: search(q, SeedSearchLimit).None?
    requires forall id :: lookup(id).None?
    ensures var r := Recommend(Some("Happy"), search, lookup, recommend);
      && r.Recommendations?
      && |r.items| == 4
      && forall k :: 0 <= k < 4 ==> r.items[k].id == t.id
  {
    var queries := SearchQueries("Happy");
    var candidates := SearchAll(queries, search);
    SearchAllOfConstantSearch(queries, search, t);
    StrictFilterRejectsUnknownFeatures("Happy", lookup, candidates);
    var verified := StrictFilter("Happy", lookup, candidates).verified;
    assert SeedIds(verified, queries[0], search).None?;
    var tracks := SelectTracks("Happy", queries, candidates, verified, search, recommend);
    assert tracks == candidates;
    assert Recommend(Some("Happy"), search, lookup, recommend) == Recommendations("Happy", FormatAll(candidates));
  }

  /** When every search returns the same single track, each query contributes one copy of it. */
  lemma {:induction false} SearchAllOfConstantSearch(queries: seq<string>, search: (string, nat) -> Option<seq<Track>>, t: Track)
    requires forall q :: search(q, SearchLimit) == Some([t])
    ensures |SearchAll(queries, search)| == |queries|
    ensures forall k :: 0 <= k < |queries| ==> SearchAll(queries, search)[k] == t
    decreases |queries|
  {
    if queries != [] {
      SearchAllOfConstantSearch(queries[..|queries| - 1], search, t);
    }
  }

  /** With no features known for any track, nothing is kept. */
  lemma {:induction false} StrictFilterRejectsUnknownFeatures(mood: string, lookup: string -> Option<AudioFeatures>, candidates: seq<Track>)
    requires forall t :: t in candidates ==> lookup(t.id).None?
    ensures StrictFilter(mood, lookup, candidates).verified == []
    decreases |candidates|
  {
    if candidates != [] {
      var n := |candidates| - 1;
      assert forall t :: t in candidates[..n] ==> t in candidates;
      StrictFilterRejectsUnknownFeatures(mood, lookup, candidates[..n]);
    }
  }

  // ---------------------------------------------------------------------
  // The response
  // ---------------------------------------------------------------------

  /** Python's `sep.join(parts)`: it starts with the first part and ends with the last. */
  function Join(parts: seq<string>, sep: string): (r: string)
    ensures parts == [] ==> r == ""
    ensures parts != [] ==> parts[0] <= r
    ensures parts != [] ==> |parts[|parts| - 1]| <= |r| && r[|r| - |parts[|parts| - 1]|..] == parts[|parts| - 1]
    decreases |parts|
  {
    if parts == [] then ""
    else if |parts| == 1 then parts[0]
    else
      var init := parts[..|parts| - 1];
      assert init[0] == parts[0];
      Join(init, sep) + sep + parts[|parts| - 1]
  }

  function TotalLength(parts: seq<string>): nat
    decreases |parts|
  {
    if parts == [] then 0 else TotalLength(parts[..|parts| - 1]) + |parts[|parts| - 1]|
  }

  /** The joined text holds every part once and one separator between neighbours. */
  lemma {:induction false} JoinLength(parts: seq<string>, sep: string)
    requires parts != []
    ensures |Join(parts, sep)| == TotalLength(parts) + (|parts| - 1) * |sep|
    decreases |parts|
  {
    var last := parts[|parts| - 1];
    var init := parts[..|parts| - 1];
    assert TotalLength(parts) == TotalLength(init) + |last|;
    if |parts| > 1 {
      assert Join(parts, sep) == Join(init, sep) + sep + last;
      JoinLength(init, sep);
    } else {
      assert init == [];
      assert Join(parts, sep) == last;
    }
  }

  const ArtistSeparator := ", "

  datatype Recommendation = Recommendation(
    id: string,
    name: string,
    artist: string,
    album: string,
    previewUrl: Option<string>,
    spotifyUrl: string,
    image: Option<string>)

  /** One answer entry: artists joined with ", ", the album's first image when it has any. */
  function FormatTrack(t: Track): (r: Recommendation)
    ensures r.id == t.id && r.name == t.name && r.album == t.albumName
    ensures r.previewUrl == t.previewUrl && r.spotifyUrl == t.spotifyUrl
    ensures |t.artists| == 1 ==> r.artist == t.artists[0]
    ensures t.artists != [] ==> t.artists[0] <= r.artist
    ensures r.image.Some? <==> t.albumImages != []
    ensures r.image.Some? ==> r.image.value == t.albumImages[0]
  {
    Recommendation(
      t.id, t.name, Join(t.artists, ArtistSeparator), t.albumName, t.previewUrl, t.spotifyUrl,
      if t.albumImages != [] then Some(t.albumImages[0]) else None)
  }

  function FormatAll(tracks: seq<Track>): (items: seq<Recommendation>)
    ensures |items| == |tracks|
    ensures forall k :: 0 <= k < |tracks| ==> items[k] == FormatTrack(tracks[k])
  {
    seq(|tracks|, k requires 0 <= k < |tracks| => FormatTrack(tracks[k]))
  }

  /** The formatting loop: one entry per track, in the same order. */
  method FormatRecommendations(tracks: seq<Track>) returns (items: seq<Recommendation>)
    ensures |items| == |tracks|
    ensures forall k :: 0 <= k < |tracks| ==> items[k] == FormatTrack(tracks[k])
  {
    items := [];
    for i := 0 to |tracks|
      invariant |items| == i
      invariant forall k :: 0 <= k < i ==> items[k] == FormatTrack(tracks[k])
    {
      items := items + [FormatTrack(tracks[i])];
    }
  }

  datatype RecommendResponse =
    | Recommendations(mood: string, items: seq<Recommendation>)
    | RecommendError(status: int, message: string)

  /** The whole endpoint as a function of the request's mood key and the service. */
  function Recommend(moodKey: Option<string>, search: (string, nat) -> Option<seq<Track>>,
                     lookup: string -> Option<AudioFeatures>,
                     recommend: RecParams -> Option<seq<Track>>): (r: RecommendResponse)
    ensures r.RecommendError? ==> r.status == 404
    ensures r.Recommendations? ==> r.mood == App.MoodOrDefault(moodKey) && 1 <= |r.items| <= MaxTracks
  {
    var mood := App.MoodOrDefault(moodKey);
    var queries := SearchQueries(mood);
    var candidates := SearchAll(queries, search);
    var verified := StrictFilter(mood, lookup, candidates).verified;
    var tracks := SelectTracks(mood, queries, candidates, verified, search, recommend);
    if tracks == [] then RecommendError(404, "No songs found matching criteria")
    else Recommendations(mood, FormatAll(tracks))
  }

  /**
   * The answer is "not found" exactly when no candidate was kept and the
   * fallback added nothing: the service's list was empty, or the fallback
   * raised and the searches found no candidate.
   */
  lemma RecommendNotFound(moodKey: Option<string>, search: (string, nat) -> Option<seq<Track>>,
                          lookup: string -> Option<AudioFeatures>,
                          recommend: RecParams -> Option<seq<Track>>)
    ensures var mood := App.MoodOrDefault(moodKey);
      var queries := SearchQueries(mood);
      var candidates := SearchAll(queries, search);
      var verified := StrictFilter(mood, lookup, candidates).verified;
      var api := FallbackTracks(mood, queries, verified, search, recommend);
      Recommend(moodKey, search, lookup, recommend).RecommendError? <==>
        verified == [] && (if api.Some? then api.value == [] else candidates == [])
  {
  }

  /**
   * Unless the fallback raised, the answer has no id twice and its first
   * entries are the kept tracks, in order; with 15 or more kept tracks it is
   * exactly them.
   */
  lemma RecommendKeepsVerified(moodKey: Option<string>, search: (string, nat) -> Option<seq<Track>>,
                               lookup: string -> Option<AudioFeatures>,
                               recommend: RecParams -> Option<seq<Track>>)
    ensures var mood := App.MoodOrDefault(moodKey);
      var queries := SearchQueries(mood);
      var candidates := SearchAll(queries, search);
      var verified := StrictFilter(mood, lookup, candidates).verified;
      var r := Recommend(moodKey, search, lookup, recommend);
      !FallbackFailed(mood, queries, verified, search, recommend) && r.Recommendations? ==>
        && (forall i, j :: 0 <= i < j < |r.items| ==> r.items[i].id != r.items[j].id)
        && |verified| <= |r.items|
        && (forall k :: 0 <= k < |verified| ==> r.items[k] == FormatTrack(verified[k]))
        && (|verified| >= EnoughVerified ==> r.items == FormatAll(verified))
  {
    var mood := App.MoodOrDefault(moodKey);
    var queries := SearchQueries(mood);
    var candidates := SearchAll(queries, search);
    var verified := StrictFilter(mood, lookup, candidates).verified;
    var r := Recommend(moodKey, search, lookup, recommend);
    if !FallbackFailed(mood, queries, verified, search, recommend) && r.Recommendations? {
      StrictFilterVerified(mood, lookup, candidates);
      SelectTracksKeepsVerified(mood, queries, candidates, verified, search, recommend);
      var tracks := SelectTracks(mood, queries, candidates, verified, search, recommend);
      assert r.items == FormatAll(tracks);
      forall k | 0 <= k < |verified|
        ensures r.items[k] == FormatTrack(verified[k])
      {
        assert tracks[k] == tracks[..|verified|][k];
      }
    }
  }

  /** `item` is the entry of a track from the candidates or from the service's list. */
  ghost predicate FormatsReturnedTrack(item: Recommendation, candidates: seq<Track>, api: Option<seq<Track>>)
  {
    exists t :: (t in candidates || (api.Some? && t in api.value)) && item == FormatTrack(t)
  }

  /** Every entry of the answer formats a track some search or the recommendation call returned. */
  lemma RecommendEntriesFromService(moodKey: Option<string>, search: (string, nat) -> Option<seq<Track>>,
                                    lookup: string -> Option<AudioFeatures>,
                                    recommend: RecParams -> Option<seq<Track>>)
    ensures var mood := App.MoodOrDefault(moodKey);
      var queries := SearchQueries(mood);
      var candidates := SearchAll(queries, search);
      var verified := StrictFilter(mood, lookup, candidates).verified;
      var api := FallbackTracks(mood, queries, verified, search, recommend);
      var r := Recommend(moodKey, search, lookup, recommend);
      r.Recommendations? ==>
        forall k :: 0 <= k < |r.items| ==> FormatsReturnedTrack(r.items[k], candidates, api)
  {
    var mood := App.MoodOrDefault(moodKey);
    var queries := SearchQueries(mood);
    var candidates := SearchAll(queries, search);
    var verified := StrictFilter(mood, lookup, candidates).verified;
    var api := FallbackTracks(mood, queries, verified, search, recommend);
    var r := Recommend(moodKey, search, lookup, recommend);
    if r.Recommendations? {
      StrictFilterVerified(mood, lookup, candidates);
      SubsequenceMembers(verified, candidates);
      var tracks := SelectTracks(mood, queries, candidates, verified, search, recommend);
      assert r.items == FormatAll(tracks);
      FormattedFrom(tracks, r.items, candidates, api);
    }
  }

  /** Each formatted entry comes from a track drawn from the candidates or the service's list. */
  lemma FormattedFrom(tracks: seq<Track>, items: seq<Recommendation>, candidates: seq<Track>, api: Option<seq<Track>>)
    requires items == FormatAll(tracks)
    requires forall t :: t in tracks ==> t in candidates || (api.Some? && t in api.value)
    ensures forall k :: 0 <= k < |items| ==> FormatsReturnedTrack(items[k], candidates, api)
  {
    forall k | 0 <= k < |items|
      ensures FormatsReturnedTrack(items[k], candidates, api)
    {
      var t := tracks[k];
      assert t in tracks;
      assert items[k] == FormatTrack(t);
    }
  }

  /** The endpoint as the handler runs it: search, filter, fall back, format. */
  method GetRecommendations(moodKey: Option<string>, search: (string, nat) -> Option<seq<Track>>,
                            lookup: string -> Option<AudioFeatures>,
                            recommend: RecParams -> Option<seq<Track>>) returns (r: RecommendResponse)
    ensures r == Recommend(moodKey, search, lookup, recommend)
  {
    var mood := App.MoodOrDefault(moodKey);
    var queries := SearchQueries(mood);
    var candidates := CollectCandidates(queries, search);
    var verified, checked, rejected := FilterCandidates(mood, lookup, candidates);
    var tracks: seq<Track>;
    if |verified| >= EnoughVerified {
      tracks := Take(verified, MaxTracks);
    } else {
      var seeds := SeedIds(verified, queries[0], search);
      var apiTracks := if seeds.Some? then recommend(BuildRecParams(mood, seeds.value)) else None;
      if apiTracks.Some? {
        var unique := DedupById(verified + apiTracks.value);
        tracks := Take(unique, MaxTracks);
        assert tracks == MergeTracks(verified, apiTracks.value);
      } else {
        tracks := LastResort(verified, candidates);
      }
    }
    assert tracks == SelectTracks(mood, queries, candidates, verified, search, recommend);
    if tracks == [] {
      return RecommendError(404, "No songs found matching criteria");
    }
    var items := FormatRecommendations(tracks);
    assert items == FormatAll(tracks);
    r := Recommendations(mood, items);
  }
}
