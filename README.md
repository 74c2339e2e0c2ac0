# TFT unit labelling: asset sync and detector-output labelling in Dafny

This project models two pieces of a Teamfight Tactics screen-reading tool:

- **The asset-sync script** (`scripts/fetch_assets.py`). It reads the game-data
  feed as parsed JSON and picks the latest set. It keeps the set's playable
  champions, gives each one a class name made safe for file names, and builds
  the metadata entries. It then de-duplicates the class list, keeping the order
  of first occurrence. The result is the class list written to `classes.txt`
  and the record written to `champ_meta.json`.
- **Detector-output labelling** (`inference.py`). Each detected class id is
  turned into a unit name through the detector's id-to-name table, screenshot
  after screenshot. The detector is a function parameter. It either yields a
  name table with the detected class ids, or fails.

Parsed JSON is a loosely typed value (`PyJson.Json`). Python's behaviour is
modelled explicitly where the script depends on it:

- truthiness, `or` and `dict.get`;
- `bool` counting as an `int`;
- `str.strip`'s whitespace set;
- substring tests;
- the stable sort used to pick the latest set.

Every exception the modelled code can raise is an `Err` of `Py.Result`:

- `AttributeError` from `.lower()`, `.strip()` or `.get` on a value of the wrong type;
- `TypeError` from iterating a number or comparing unorderable set numbers;
- `RuntimeError` from `bool()` of a tensor;
- `SystemExit` from the two aborts;
- `UnboundLocalError` from line 73.

Modules:

- `Py`: `Option`, `Result` and Python's exceptions.
- `PyJson`: JSON values, `Truthy`, `Or`, `Get`, `GetOr`.
- `Text`: `strip`, `lower`, substring tests.
- `Sanitize`: `safe_name`.
- `Playable`: `is_playable_champion` and the playable filter.
- `LatestSet`: choosing the latest set through a stable sort.
- `ClassBuild`: the loop that fills `classes` and `champ_meta`.
- `Dedup`: the order-preserving de-duplication loop.
- `AssetSync`: the whole of `main()`.
- `Inference`: the labelling of detector output.

The three loops the source writes (the build loop, the de-duplication loop and
the screenshot loop), and `main()`, which calls the first two, are Dafny
methods proved against specification functions:

- `ClassBuild.BuildClasses` against `ClassBuild.Build`;
- `Dedup.DedupPreservingOrder` against `Dedup.FirstIndex` and `Dedup.Elements`;
- `AssetSync.Sync` against `AssetSync.Collected`;
- `Inference.ProcessScreenshots` against `Inference.AllNames`.

The record written to `champ_meta.json` is a set number, a count and a list of
per-unit entries, which is what the code builds. It is not a map from class
name to cost and traits. Its `count` is the number of distinct class names,
which can be smaller than the number of entries (`AssetSync.ViFeedOutcome`).

## Model

| member | source | states |
|---|---|---|
| `Text.Strip` | scripts/fetch_assets.py:30 | `name.strip()` is a slice of its input with only whitespace on either side, with no whitespace at either end, and empty exactly when the input is all whitespace |
| `Text.StripLeft` | scripts/fetch_assets.py:30 | the leading half of `strip`: the result is a suffix of the input, everything it drops is whitespace, and it does not start with whitespace |
| `Text.StripRight` | scripts/fetch_assets.py:30 | the trailing half of `strip`: the result is a prefix of the input, everything it drops is whitespace, and it does not end with whitespace |
| `Text.StripSurrounded` | scripts/fetch_assets.py:30 | adding any amount of whitespace around a string does not change what `strip` keeps |
| `Text.StripTrimmed` | scripts/fetch_assets.py:30 | a string with no surrounding whitespace is its own `strip` |
| `Sanitize.DropRun` | scripts/fetch_assets.py:30 | the run that `[^A-Za-z0-9_]+` matches at the head of the text consists only of disallowed characters, and what follows it starts with an allowed one |
| `Sanitize.Collapse` | scripts/fetch_assets.py:30 | the output of `re.sub(r"[^A-Za-z0-9_]+", "_", s)` contains only ASCII letters, digits and `_`, and is never longer than its input |
| `Sanitize.SafeName` | scripts/fetch_assets.py:29-30 | `safe_name` returns only ASCII letters, digits and `_`, is never longer than the name, and is empty exactly when the name is all whitespace |
| `Sanitize.CollapseWord` | scripts/fetch_assets.py:30 | allowed characters pass through unchanged and in order |
| `Sanitize.CollapseRun` | scripts/fetch_assets.py:30 | a maximal run of disallowed characters, however long, becomes exactly one `_` |
| `Sanitize.CollapseConcat` | scripts/fetch_assets.py:30 | the substitution works piece by piece across any boundary an allowed character touches |
| `Sanitize.SafeNameClean` | scripts/fetch_assets.py:29-30 | a name made only of allowed characters is returned unchanged |
| `Sanitize.SafeNameIdempotent` | scripts/fetch_assets.py:29-30 | sanitising twice gives what sanitising once does |
| `Sanitize.SafeNameIgnoresSurroundingSpace` | scripts/fetch_assets.py:29-30 | whitespace around a name never reaches its class name |
| `Playable.IsPlayableChampion` | scripts/fetch_assets.py:43-63 | a unit is playable exactly when its cost is a positive number, its `traits` is a non-empty list and no bad keyword occurs in its lower-cased name or API name. A missing, zero, negative or non-numeric cost gives False, and so do missing or empty traits. Once the cost and traits tests pass, it raises AttributeError exactly when the name or the API-name fallback is truthy but not a string, and it raises nothing else |
| `Playable.NoCostNotPlayable` | scripts/fetch_assets.py:45-47 | a unit without a cost is rejected even when it has a name and traits |
| `Playable.NoTraitsNotPlayable` | scripts/fetch_assets.py:48-50 | a unit with an empty trait list is rejected |
| `Playable.TrainingDummyNotPlayable` | scripts/fetch_assets.py:53-61 | a keyword found in the API name, here `training` in `TFT_TrainingDummy`, rejects the unit |
| `Playable.NumericNameRaises` | scripts/fetch_assets.py:53 | a truthy name that is not a string makes `.lower()` raise AttributeError |
| `Playable.BoolCostPasses` | scripts/fetch_assets.py:45-46 | `True` as a cost passes the cost test, because Python's bool is an int |
| `Playable.PlayableUnits` | scripts/fetch_assets.py:80 | the comprehension raises exactly when some dict unit makes `is_playable_champion` raise, and then raises AttributeError. Otherwise it holds exactly the dict units that pass, each one taken from the input, and is no longer than the input |
| `Playable.PlayableUnitsConcat` | scripts/fetch_assets.py:80 | the filter keeps input order: on a concatenation it gives the two results concatenated |
| `LatestSet.SetList` | scripts/fetch_assets.py:66-70 | a feed that is not a dict raises AttributeError. A missing or falsy `sets` aborts with SystemExit. A dict of sets gives its values in order, a list is used as given, a string gives its characters, and a number raises TypeError. A successful result is never empty |
| `LatestSet.Insert` | scripts/fetch_assets.py:71 | one step of the stable sort adds exactly the new index to the ones already sorted |
| `LatestSet.SortedIndices` | scripts/fetch_assets.py:71 | the sort yields every index once |
| `LatestSet.InsertSortedStable` | scripts/fetch_assets.py:71 | inserting an index keeps the order sorted by key and keeps equal keys in input order |
| `LatestSet.SortedIndicesSortedStable` | scripts/fetch_assets.py:71 | `sorted(..., key=...)` orders the sets by number and is stable |
| `LatestSet.LastOfSorted` | scripts/fetch_assets.py:71 | the last element of the stable sort has the greatest key, and every later input index has a strictly smaller one |
| `LatestSet.LatestIndex` | scripts/fetch_assets.py:71 | a set that is not a dict raises AttributeError. With two or more sets, a number Python cannot compare with an int raises TypeError. Otherwise the result is the last set in input order among those with the greatest number |
| `LatestSet.LatestSet` | scripts/fetch_assets.py:66-71 | `latest` is the set at the index the stable sort puts last, and it fails exactly as that sort does. So it is a dict from the set list, its number is at least every other set's, and every set listed after it has a smaller number. When reading the set list fails, its exception is passed on |
| `LatestSet.TieGoesToLaterSet` | scripts/fetch_assets.py:71 | of two sets with the same greatest number, the one listed later is chosen |
| `ClassBuild.EntryFor` | scripts/fetch_assets.py:89-101 | a unit whose display name is falsy is skipped. A truthy display name that is not a string raises in `safe_name`. Otherwise the entry carries that display name, and the name is non-empty |
| `ClassBuild.Named` | scripts/fetch_assets.py:89-91 | the units the loop does not skip are exactly the units with a truthy display name, each taken from the input, and there are no more of them than units |
| `ClassBuild.NamedPositions` | scripts/fetch_assets.py:88-91 | the positions of the units with a truthy display name, strictly increasing and all of them |
| `ClassBuild.NamedAtPositions` | scripts/fetch_assets.py:88-91 | the k-th unit the loop keeps is the unit at the k-th named position: skipped units are dropped and unit order is kept |
| `ClassBuild.Build` | scripts/fetch_assets.py:85-101 | the loop can raise only AttributeError. On success the two lists have equal length, no longer than the input, and the i-th class is `safe_name` of the i-th entry's name |
| `ClassBuild.BuildClasses` | scripts/fetch_assets.py:85-101 | the loop computes `Build` over the playable units: the two lists it fills have equal length, and each class is `safe_name` of the entry at the same position |
| `ClassBuild.BuildFollowsNamed` | scripts/fetch_assets.py:88-101 | there is one entry per unit with a display name, in unit order, and each carries that unit's fields under its display name |
| `ClassBuild.BuildRaisesIff` | scripts/fetch_assets.py:89-92 | the loop raises exactly when some unit has a truthy display name that is not a string |
| `ClassBuild.BuildStopsAtError` | scripts/fetch_assets.py:92 | once the loop has raised, later units change nothing |
| `ClassBuild.BuildConcat` | scripts/fetch_assets.py:88-101 | the loop keeps unit order: the lists for `a + b` are those for `a` followed by those for `b` |
| `ClassBuild.BuildOne` | scripts/fetch_assets.py:88-101 | one unit with a string display name gives one class, its `safe_name`, and one entry |
| `ClassBuild.BuildTwo` | scripts/fetch_assets.py:88-101 | two units with string display names give their two classes and two entries, in unit order |
| `ClassBuild.SameNameTwice` | scripts/fetch_assets.py:88-101 | two units with the same non-empty string display name give the same class twice and two metadata entries, each carrying its own unit's fields under that name; nothing is merged before de-duplication |
| `Dedup.FirstIndex` | scripts/fetch_assets.py:104-107 | the position of the first occurrence of an element |
| `Dedup.Elements` | scripts/fetch_assets.py:104-107 | the set of the classes has exactly the elements of the list |
| `Dedup.DistinctCount` | scripts/fetch_assets.py:104-107 | a list without repeats has as many entries as distinct elements |
| `Dedup.ElementsBound` | scripts/fetch_assets.py:104-107 | a list has at least as many entries as distinct elements |
| `Dedup.DedupPreservingOrder` | scripts/fetch_assets.py:104-107 | `classes_uni` has no repeats and exactly the members of `classes`. They appear in order of first occurrence, and there are as many of them as distinct classes |
| `AssetSync.UnitsOf` | scripts/fetch_assets.py:77 | a truthy `champions` list is what the script walks; with `champions` falsy, a truthy `units` list is; with neither truthy it walks nothing. When the `or` chain yields a dict, the script walks its keys as strings; when it yields a string, its characters; so neither gives a dict item for the filter to keep. A truthy number or bool raises TypeError, and nothing else raises |
| `AssetSync.MainAsWritten` | scripts/fetch_assets.py:66-73 | `main()` as written never finishes. Once a set is chosen it raises UnboundLocalError for `classes_uni`; before that it raises what choosing the set raises |
| `AssetSync.Sync` | scripts/fetch_assets.py:66-125 | `main()` with the record assembled at lines 121-125 instead of line 73. It fails exactly as the pipeline does. On success the class list has no repeats, has the built classes in first-occurrence order and only allowed characters, and the record's count is its length |
| `AssetSync.CollectedSteps` | scripts/fetch_assets.py:66-101 | when set selection, unit listing, filtering and the build loop each succeed, the pipeline yields the built lists and the set's `number` |
| `AssetSync.ViFeedRaises` | scripts/fetch_assets.py:73 | on a well-formed feed, `main()` as written raises UnboundLocalError |
| `AssetSync.ViFeedOutcome` | scripts/fetch_assets.py:85-125 | two positive-cost units named "Vi" in the latest set give two class entries and two metadata entries, but a `count` of one |
| `Inference.ProcessImageAndPredict` | inference.py:9-25 | a failed prediction, and a prediction with no detection (`xyxy[0]` raises), give the failure triple of two empty lists. Otherwise the result carries the name table and the class tensor |
| `Inference.GetChampionNames` | inference.py:27-31 | the result is no longer than the ids |
| `Inference.NamesAreTableValues` | inference.py:31 | every name the comprehension yields is a value of `champ_list` |
| `Inference.NoKnownIdNoNames` | inference.py:31 | when `champ_list` knows none of the ids, no name is yielded |
| `Inference.KnownPositions` | inference.py:31 | the positions whose id the table knows, strictly increasing and all of them |
| `Inference.NamesAtKnownPositions` | inference.py:31 | the k-th name is `champ_list` of the k-th known id: unknown ids are dropped and the order of the ids is kept |
| `Inference.AllKnownNames` | inference.py:31 | when every id is known, the i-th name is `champ_list[ids[i]]` |
| `Inference.NamesConcat` | inference.py:31 | the comprehension distributes over concatenation of the ids |
| `Inference.UnknownIdDropped` | inference.py:31 | an id missing from `champ_list` is silently dropped wherever it stands |
| `Inference.RepeatedIdRepeatedName` | inference.py:31 | a known id detected n times yields its name at least n times |
| `Inference.Truthiness` | inference.py:38 | `bool()` of a list is its non-emptiness. `bool()` of a tensor raises RuntimeError unless it holds exactly one element, and is then that element's non-zeroness |
| `Inference.ScreenshotNamesAsWritten` | inference.py:36-42 | as written, a screenshot adds at most one name, and only when it holds exactly one detection of a known class other than 0 |
| `Inference.ScreenshotNames` | inference.py:36-42 | a failed prediction adds nothing; otherwise no more names than detections |
| `Inference.AsWrittenAgrees` | inference.py:36-42 | with no detection, or one detection of a non-zero class, the code as written and the intended guard agree |
| `Inference.TwoDetectionsLost` | inference.py:38-42 | two detected units are both lost as written, and both named with the intended guard |
| `Inference.ClassZeroLost` | inference.py:38 | a single detection of class 0 is lost as written, and named with the intended guard |
| `Inference.NamesComeFromScreenshots` | inference.py:33-44 | every name reported is a value of the name table of a screenshot whose prediction succeeded |
| `Inference.AllNamesConcat` | inference.py:33-44 | the names for a run of screenshots are the names for its parts, concatenated in screenshot order |
| `Inference.EmptyScreenshotAddsNothing` | inference.py:33-44 | a screenshot whose prediction failed or found nothing adds no names, wherever it stands |
| `Inference.GuardedStep` | inference.py:37-39 | the intended guard of line 38 filters out only cases that would contribute nothing anyway |
| `Inference.ProcessScreenshots` | inference.py:33-44 | `champions` ends as the per-screenshot name lists concatenated in screenshot order, each name coming from a successful screenshot |

## Left out

- Fetching the feed over HTTP, creating directories at import time, writing
  `classes.txt` and `champ_meta.json`, and the progress prints
  (scripts/fetch_assets.py:19-27, 35-36, 109-128). The feed is a parameter and
  the written data are return values.
- The module-level `safe_name` (scripts/fetch_assets.py:29-30) and the one
  `main()` defines (lines 39-41) are the same function, modelled once as
  `Sanitize.SafeName`.
- Float costs: JSON numbers are integers here, so `isinstance(cost, float)`
  never applies.
- `Text.Lower` lower-cases ASCII letters only. Python's `str.lower` also maps
  other scripts' letters, which could matter only for a keyword match on
  non-ASCII names.
- LatestSet.LatestIndex: with two or more sets, any `number` that is not an
  int or a bool is modelled as a TypeError. Python would also order numbers that
  are all strings, or all lists, among themselves.
- JSON objects are lists of key/value pairs where the first match wins. A
  parsed JSON object has no repeated keys, so this is exact.
- YOLO loading and prediction, image cropping, the temporary PNG file and its
  removal (inference.py:1-22). The detector is the `predict` parameter, and a
  failed prediction is `Inference.PredictionFailed`.
- The third value of `process_image_and_predict`, the first box's coordinates:
  nothing downstream reads it.
- Class ids are integers. The detector's tensor holds floats, and a float
  equal to an int key finds the same dict entry.
- Inference.ProcessScreenshots uses the intended reading of line 38 (see
  Findings). The as-written behaviour is modelled per screenshot by
  `Inference.ScreenshotNamesAsWritten`.
- The progress and error prints of inference.py (lines 24, 40, 42).
- overlay.py (Qt painting), webscrape.py (browser scraping), threadedMain.py,
  listener.py, infer.py and main.py (threads, keyboard hooks, screen capture
  and window bring-up) are not part of this model.

## Findings

| source | as written | input that shows it | evidently intended | confidence | as-written member | corrected member |
|---|---|---|---|---|---|---|
| scripts/fetch_assets.py:73 | builds `meta` from `classes_uni` and `champ_meta` before either is assigned, so `main()` raises UnboundLocalError as soon as a set is chosen | any feed with a dict set, e.g. one set numbered 13 listing "Vi" twice (`AssetSync.ViFeedRaises`) | the record is assembled from the finished lists, as the write at lines 121-125 does | high; not executed | `AssetSync.MainAsWritten` | `AssetSync.Sync` |
| inference.py:38 | `champ_list and unit_ids` calls `bool()` on the class tensor. With two or more detections that raises RuntimeError, which lines 41-42 swallow. A single detection of class 0 is falsy | a screenshot detecting classes `[1, 2]` with names Ahri and Jinx adds nothing; one detecting only class 0 adds nothing (`Inference.TwoDetectionsLost`, `Inference.ClassZeroLost`) | add the names whenever the table and the detection list are non-empty | high; not executed | `Inference.ScreenshotNamesAsWritten` | `Inference.ScreenshotNames` |
