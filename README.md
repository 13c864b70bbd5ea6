# MoodTune backend — a Dafny model

MoodTune analyses an uploaded audio file, labels its mood (Happy, Sad,
Energetic or Calm), recommends mood-matched tracks from a music service and
produces a "remix" whose speed and volume depend on the mood. The browser
front end only displays what the backend answers. This project models the
backend's decision logic:

- `MoodClassifier` (`mood_classifier.dfy`): the threshold rule that turns
  (valence, energy) into a label and a fixed confidence, the per-mood target
  features and the per-mood seed genres, each with its default for unknown
  moods.
- `AudioProcessor` (`audio_processor.dfy`): the clamped linear estimate of
  valence and energy from extracted signal features, and the per-mood
  (speed, volume) table of the remix.
- `App` (`app.dfy`): the file-extension check on upload names, the
  validation ladder of `POST /api/analyze`, and `POST /api/remix` with its
  checks and `remix_` output naming.
- `Recommend` (`recommend.dfy`): `POST /api/recommend`. It collects
  candidates from several searches and keeps those whose audio features pass
  the mood's strict check. The filter keeps at most 20 tracks, never keeps an
  id twice and keeps the candidates' order. When fewer than 15 tracks pass,
  it builds at most 5 seeds and calls the recommendation service with the
  mood's bounds. It merges the kept tracks with the service's tracks, keeps
  the first track with each id and truncates to 20. Last, it formats the
  answer.
- `Common` (`common.dfy`): `Option`, Python's `s[:n]` and the subsequence
  relation.

The music service, the feature extractor, the name sanitiser, the file
system and the audio rewriter are function parameters. The music service
is three parameters: `search(query, limit)`, `lookup(id)` and
`recommend(params)`. A call that raises, or features that are missing,
show up as `None`. Real numbers are exact rationals.

The loops of the recommendation handler are methods proved against
specification functions:
- `CollectCandidates` (searching) equals the recursive `SearchAll`,
- `FilterCandidates` (the strict filter with its `break` at 20 and its
  `checked`/`rejected` counters) equals the recursive `StrictFilter`,
- `DedupById` (the `seen` set) equals the recursive `FirstOccurrences`,
- `FormatRecommendations` (building the answer) yields `FormatTrack` of
  each track, entry by entry.
`GetRecommendations` runs them in the handler's order and is proved equal
to the function `Recommend`. Lemmas about `Recommend` state when it answers
404, that the answer starts with the kept tracks unless the fallback raised,
and that every entry comes from a track the service returned.

Some facts the proofs bring out:
- The Energetic target features (valence 0.7, energy 0.9) lie in the
  region the classifier labels Happy.
- The strict Energetic and Calm checks and the classifier's Energetic and
  Calm regions are incomparable. (0.5, 0.6) is labelled Energetic but fails
  the strict Energetic check, and it passes the strict Calm check. (0.9, 0.9)
  passes the strict Energetic check but is labelled Happy. (0.3, 0.1) passes
  the strict Calm check but is labelled Sad.
- When the fallback raises and no track was kept, the answer is the first
  20 raw candidates. Ids can repeat there, unlike on the other two paths.
- `create_remix` passes the request's file name to the existence test and
  the output name without sanitising it. The model passes it on unchanged
  too.

## Model

| member | source | states |
|---|---|---|
| MoodClassifier.ClassifyMoodSimple | Backend/models/mood_classifier.py:7-16 | The label is always one of the four labels. Happy holds exactly when valence ≥ 0.6 and energy ≥ 0.6. Sad holds exactly when both are < 0.4. Energetic holds exactly when energy ≥ 0.6 and valence < 0.6. Calm covers the rest. The confidence is fixed by the label and lies in [0.78, 0.85]. |
| MoodClassifier.GetMoodRecommendations | Backend/models/mood_classifier.py:18-26 | An unknown mood gets the Calm targets. Every target valence and energy lies in [0, 1], and the target tempo lies in [80, 140]. |
| MoodClassifier.TargetsClassification | Backend/models/mood_classifier.py:7-26 | The Happy, Sad and Calm targets are classified as their own mood. The Energetic targets are classified as Happy. |
| MoodClassifier.GetSeedGenres | Backend/models/mood_classifier.py:28-36 | The genre list is never empty. An unknown mood gets `["pop"]`, and every genre is pop, dance or acoustic. |
| AudioProcessor.EstimateValenceEnergy | Backend/utils/audio_processor.py:41-52 | Valence and energy always lie in [0, 1]. Each equals its unclamped expression when that expression lies in [0, 1]. It is 0 below that range and 1 above it. |
| AudioProcessor.ValenceDependsOnlyOnCentroidAndChroma | Backend/utils/audio_processor.py:42-45 | Valence depends only on spectral centroid and chroma mean. |
| AudioProcessor.EnergyDependsOnlyOnRmsAndTempo | Backend/utils/audio_processor.py:47-50 | Energy depends only on RMS energy and tempo. |
| AudioProcessor.EnergyMonotoneInTempo | Backend/utils/audio_processor.py:47-50 | With the other features fixed, energy does not decrease as tempo grows. |
| AudioProcessor.EnergyMonotoneInRms | Backend/utils/audio_processor.py:47-50 | With the other features fixed, energy does not decrease as RMS energy grows. |
| AudioProcessor.ValenceMonotoneInCentroid | Backend/utils/audio_processor.py:42-45 | With the other features fixed, valence does not decrease as spectral centroid grows. |
| AudioProcessor.ValenceMonotoneInChroma | Backend/utils/audio_processor.py:42-45 | With the other features fixed, valence does not decrease as chroma mean grows. |
| AudioProcessor.RemixModification | Backend/utils/audio_processor.py:75-83 | An unknown mood gets speed 1.0 and volume 0. Sad and Calm slow down and lower the volume. Energetic speeds up and raises it. Happy keeps speed 1.0 and raises the volume. Speed is 1.0 exactly for Happy and unknown moods. |
| App.LastDotIndex | Backend/app.py:20-22 | Finds the last '.' of a name: there is no index exactly when the name has no '.'. Otherwise the index holds a '.' and no '.' follows it. |
| App.Extension | Backend/app.py:22 | The text after the last '.': a '.'-free suffix of the name, preceded by a '.'. |
| App.ToLower | Backend/app.py:22 | Lower-casing keeps the length and lower-cases each character on its own. |
| App.AllowedFile | Backend/app.py:20-22 | A name with no '.' is never allowed. |
| App.AllowedFileByExtension | Backend/app.py:20-22 | For a '.'-free `ext`, `stem.ext` is allowed exactly when the lower-cased `ext` is an allowed extension, whatever the stem contains. |
| App.AllowedFileCaseInsensitive | Backend/app.py:20-22 | Lower-casing the name never changes the verdict. |
| App.ValidateUpload | Backend/app.py:32-41 | The three checks pass exactly when a file was sent, its name is not empty and its extension is allowed. Each failure is a 400. |
| App.AnalyzeAudio | Backend/app.py:28-71 | The checks run in order: missing file, then empty name, then bad extension, each a 400 with its own message. A 500 means validation passed and extraction failed. Validation plus successful extraction always gives an analysis. It carries the sanitised name, the extracted tempo and spectral centroid, and the estimate of the extracted features. Its mood is the classifier's label for that estimate, with that label's confidence. |
| App.RejectedUploadNeverExtracts | Backend/app.py:32-49 | A rejected upload does not depend on the sanitiser or the extractor, so neither is reached. |
| App.RemixOutputName | Backend/app.py:309 | The output name is `remix_` followed by the original name, unchanged. |
| App.RemixOutputNameInjective | Backend/app.py:309 | Different names never share an output name. |
| App.MoodOrDefault | Backend/app.py:301 | A missing mood key means Calm. Otherwise the given mood is used. |
| App.CreateRemix | Backend/app.py:295-325 | A missing or empty name gives 400, and only that case does. A named file that is missing gives 404, and only that case does. A failed rewrite of an existing file gives 500. The remix is created exactly when the rewriter succeeds on `remix_` + name with the mood's table entry. A success names that output. |
| Recommend.StrictCheck | Backend/app.py:91-114 | A strict check exists exactly for the four labels. |
| Recommend.StrictCheckVersusClassifier | Backend/app.py:91-112 | Points labelled Happy or Sad pass that mood's strict check. For Energetic and Calm the check and the label are incomparable: witnesses pass the check with another label, and others carry the label but fail the check. |
| Recommend.SearchQueries | Backend/app.py:117-144 | A known mood has four queries. An unknown mood searches for "bollywood" alone. |
| Recommend.SearchAll | Backend/app.py:147-157 | When every search raises, there are no candidates. With one query, the candidates are that search's items. |
| Recommend.SearchAllMembers | Backend/app.py:147-157 | A track is a candidate exactly when some query's search returned it. |
| Recommend.CollectCandidates | Backend/app.py:147-157 | The search loop yields every search's items, in query order, skipping failed searches. |
| Recommend.Accepts | Backend/app.py:176-192 | A track passes only when its features are known and the mood has a strict check. Missing features reject it. |
| Recommend.FilterStep | Backend/app.py:166-200 | One candidate either leaves the kept tracks as they are or appends itself. It appends exactly when fewer than 20 are kept, its id is new and it passes. `checked` grows by one exactly when fewer than 20 are kept and the id is new, so capped and duplicate candidates are not counted. `checked` minus `rejected` grows by the number of tracks added. |
| Recommend.StrictFilter | Backend/app.py:162-200 | The filter keeps at most 20 tracks. `checked` equals the kept count plus `rejected`, so `rejected` ≤ `checked`. `checked` never exceeds the number of candidates. As the fold of `FilterStep`, it counts only the candidates with a new id examined before the cap. |
| Recommend.StrictFilterVerified | Backend/app.py:166-192 | The kept tracks have distinct ids and are a subsequence of the candidates, in the same order. Each one's features pass the mood's check. |
| Recommend.StrictFilterReference | Backend/app.py:166-192 | The kept tracks are exactly the first 20 distinct-id tracks among the candidates that pass, in candidate order. |
| Recommend.StrictFilterKeepsPassing | Backend/app.py:166-192 | Short of 20 kept tracks, every candidate that passes has its id among the kept tracks. |
| Recommend.StrictFilterUnknownMood | Backend/app.py:176-200 | For a mood without criteria, nothing is kept and every checked candidate is rejected. |
| Recommend.StrictFilterChecksAll | Backend/app.py:166-174 | With at most 20 candidates of distinct ids, every candidate is checked. |
| Recommend.StrictFilterCapped | Backend/app.py:166-168 | Once 20 tracks are kept, later candidates change nothing. |
| Recommend.StrictFilterRejectsUnknownFeatures | Backend/app.py:176-182 | When no track's features are known, nothing is kept. |
| Recommend.FilterCandidates | Backend/app.py:162-200 | The loop, with its break at 20 and its duplicate skip, ends with the kept tracks and counters of the specification. |
| Recommend.FirstOccurrences | Backend/app.py:250-255 | The deduplicated list has distinct ids and carries exactly the input's ids. |
| Recommend.FirstOccurrencesKeepsFirsts | Backend/app.py:250-255 | The deduplicated list keeps the input order. It holds every track that was the first with its id. |
| Recommend.FirstOccurrencesOfUnique | Backend/app.py:250-255 | A list with distinct ids is left unchanged. |
| Recommend.FirstOccurrencesPrefix | Backend/app.py:247-255 | Appending tracks to the input only appends to the result. |
| Recommend.DedupById | Backend/app.py:250-255 | The loop over the `seen` set yields the first occurrence of each id, in order. |
| Recommend.BuildRecParams | Backend/app.py:220-241 | The call gets the given seeds, a limit of 20 and the mood's targets. An unknown mood sends no bounds. |
| Recommend.RecParamsMatchStrictCheck | Backend/app.py:229-241 | For every known mood, the bounds sent to the service admit exactly the points that pass the strict check. |
| Recommend.SeedIds | Backend/app.py:213-218 | There are at most 5 seeds. When tracks were kept, the seeds are the ids of the first min(5, kept) of them. Otherwise the seed search decides: its failure is reported, and on success the seeds are the ids of its first min(5, items) items. |
| Recommend.MergeTracks | Backend/app.py:247-257 | The merged list has at most 20 tracks, drawn from the kept tracks and the service's. It is empty exactly when both are empty. Short of 20, every kept or service track has its id in it. |
| Recommend.MergeTracksKeepsVerified | Backend/app.py:246-257 | The merged list has distinct ids and at most 20 tracks, and it begins with all the kept tracks. |
| Recommend.LastResort | Backend/app.py:263 | When tracks were kept, the first min(20, kept) of them; otherwise the first min(20, candidates) candidates. It is empty exactly when both are empty. |
| Recommend.SelectTracks | Backend/app.py:204-263 | The final list has at most 20 tracks. With 15 or more kept tracks it is those tracks. It is never empty when a track was kept. Every track in it was kept, was a candidate or came from the recommendation call. |
| Recommend.SelectTracksKeepsVerified | Backend/app.py:204-257 | Unless the fallback raised, the final list has distinct ids and begins with every kept track. |
| Recommend.LastResortCanRepeatIds | Backend/app.py:260-263 | Take a search that always returns one track, a seed search that raises and no known features. Then the answer holds that track four times. |
| Recommend.JoinLength | Backend/app.py:274 | The joined artist text has the parts' total length plus one separator between each pair of neighbours. |
| Recommend.Join | Backend/app.py:274 | Joining no parts gives the empty text. Otherwise the text starts with the first part and ends with the last. |
| Recommend.FormatTrack | Backend/app.py:271-279 | An entry keeps the track's id, name, album, preview and link. A single artist is the artist text as it is, and several start with the first. There is an image exactly when the album has one, and it is the first. |
| Recommend.FormatRecommendations | Backend/app.py:269-279 | One entry per track, in order. `artist` is the ', '-join of the artist names, and `image` is the first album image or None. |
| Recommend.Recommend | Backend/app.py:265-287 | An empty track list gives 404. Otherwise the answer echoes the mood (Calm when absent) and holds 1 to 20 entries. |
| Recommend.RecommendNotFound | Backend/app.py:204-266 | The answer is 404 exactly when no track was kept and the fallback added nothing. Either the recommendation call returned no tracks, or the fallback raised and the searches found no candidate. |
| Recommend.RecommendKeepsVerified | Backend/app.py:204-279 | Unless the fallback raised, the answer has no id twice and its first entries format the kept tracks, in order. With 15 or more kept tracks it formats exactly them. |
| Recommend.RecommendEntriesFromService | Backend/app.py:147-279 | Every entry formats a track that a search or the recommendation call returned. |
| Recommend.GetRecommendations | Backend/app.py:78-287 | The handler's sequence of loops and calls answers what `Recommend` specifies. |

## Left out

- Flask routing, `request.files`, JSON parsing and `jsonify`: requests become plain parameters. A JSON `null` for `mood` or `filename` is not modelled, and a missing request body, which raises and gives 500, is not modelled either.
- The catch-all `except Exception` handlers: only the exceptions the logic depends on are modelled. These are a failed search, feature lookup or recommendation call, and a mood without criteria. Failures of `file.save` or of malformed service records are not.
- `secure_filename`, `os.path.exists`, `file.save` and `send_file`: these are I/O. The sanitiser and the existence test are parameters. `GET /api/download` and `GET /api/health` are not modelled.
- `AudioProcessor.extract_features` (librosa signal processing) and `AudioProcessor.modify_audio` (pydub decoding, gain, resampling, fades, export): these are foreign libraries and file I/O. The extractor and the rewriter are parameters, and `modify_audio`'s success is the rewriter's answer.
- `Backend/utils/spotify_client.py`, `Backend/test_spotify.py` and the front end: a service wrapper, a network smoke test and presentation.
- Logging with `print` and `traceback`.
- Floating point: reals are exact, so nothing is claimed about rounding at thresholds such as 0.6 or 0.4.
- The allowed-extension set and the upload folder are configuration values that are not part of this model. The set is a parameter.
- App.ToLower: only ASCII letters are lower-cased, while Python's `str.lower` also folds other scripts.
- Recommend.FilterCandidates: a feature lookup is a function of the track id, so a rejected track that appears twice gets the same answer both times. The service could answer differently.
- Recommend.SearchAll: the model does not assume that a search returns at most `limit` items. The bound on the final list comes from the truncations.
- Backend/models/mood_classifier.py: `get_seed_genres` is defined at module level with a stray `self` parameter and is never called. It is modelled as a function of the mood alone.
