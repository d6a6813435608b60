# TM-Extractor, modelled in Dafny

TM-Extractor takes Tasking Manager projects and submits one extraction request per project to the Raw Data API. It then tracks the submitted tasks. A separate script summarises the resulting `result.json`. This project models three files:

- **the current `ProjectProcessor`** (`tm_extractor.py`), covering:
  - the mapping-type normaliser;
  - the request-config builder;
  - the four retry loops: POST submission, status GET, project lookup and active-project query;
  - `process_project` and `init_call`;
  - the status tracker.
- **the earlier `ProjectProcessor`** (`tm-extractor.py`). It rewrites one configuration object in place on every call, and its `init_call` evaluates `process_project` twice per project.
- **the result analyser** (`utils/result_analyzer.py`), covering `convert_elapsed_time_to_seconds` and `process_json`.

## How it is modelled

- **Decoded JSON** is the `Values.Json` datatype, and Python's `None` is `JNull`.
- **Python's `in` and indexing** on decoded values are modelled as Python evaluates them:
  - `key in x` is key membership on a dict, a substring test on a string and element equality on a list, and it raises on `None`, numbers and bools (`Values.Membership`);
  - `x[key]` with a string key succeeds only on a dict (`Values.Probe`);
  - a dict key is the value itself, except that lists and dicts are unhashable and `True`/`False` are the keys `1`/`0` (`Values.DictKey`).
- **Exceptions.** An exception that escapes the earlier processor or the analyser is the `Err` side of a `Result`.
- **The network** is an oracle: a finite, recorded sequence of replies, each a body, an HTTP error status or another failure.
  - Every HTTP call reads the next reply.
  - Once the sequence is used up, every further call fails the way a timeout would.
  - This is also why the current tracker's `while True` poll loop terminates in the model.
- **Sleeps** are not performed. They are recorded in order as a trace of durations, so that attempt counts and wait schedules can be stated exactly.

Each loop is a method proved against a recursive specification function. The function states what the loop computes from a given attempt or position onwards, and the lemmas state properties of that function.

The modules follow the code:

| module | file | models |
|---|---|---|
| `Values` | `values.dfy` | JSON values, truthiness, `dict.get`, ASCII `str.upper()`, `str()` of a scalar |
| `Network` | `network.dfy` | the reply oracle and the sleep trace |
| `MappingTypes` | `mapping_types.dfy` | `get_mapping_list` in both revisions |
| `ConfigBuilder` | `config_builder.dfy` | the current `generate_filtered_config` |
| `Retry` | `retry.dfy` | `retry_post_request`, `retry_get_request`, `get_project_details`, `get_active_projects` |
| `Pipeline` | `pipeline.dfy` | the current `process_project` and `init_call` |
| `Tracker` | `tracker.dfy` | the current `track_tasks_status` |
| `LegacyConfig` | `legacy_config.dfy` | the earlier in-place `generate_filtered_config`, as a function of the configuration |
| `Legacy` | `legacy.dfy` | the earlier processor as a class over its configuration: `process_project`, the rate-limited POST, the single lookups, `init_call` |
| `LegacyTracker` | `legacy_tracker.dfy` | the earlier two-poll `track_tasks_status` |
| `ResultAnalyzer` | `analyzer.dfy` | `convert_elapsed_time_to_seconds` and `process_json` |

The model follows the code rather than the system's documented description in two places:

- **Rate limits.** The POST loop sleeps `rate_limit_wait` once for *each* 429/502 reply (`tm_extractor.py:245-247`). It does not take a single long wait for a run of them (see `Retry.PostAfterRateLimits`).
- **Ordinals.** Ordinals are decremented in the current revision but incremented in the earlier one (`tm_extractor.py:155`, `tm-extractor.py:46`). Both conventions are modelled, and `MappingTypes.OrdinalConventionsDiffer` states how they relate.

## Model

| member | source | states |
|---|---|---|
| Values.GetOr | tm_extractor.py:191-193 | `d.get(key, default)`: the stored value when the key is present, the default otherwise |
| Values.Upper | tm_extractor.py:159-160 | upper-casing keeps the length and upper-cases each ASCII letter in place |
| Values.Chars | tm_extractor.py:171-174 | iterating a string visits its characters in order, each a one-character string |
| Values.ContainsWitness | tm_extractor.py:173 | `key in text` holds when `key` occurs in `text` at any position |
| Values.Probe | tm_extractor.py:173 | `category[key] if key in category`: the value exactly when the category is a dict holding the key; skipped exactly when the test is false; otherwise (a scalar, or a string or list that passes the test) it raises |
| Values.DictKey | tm_extractor.py:306 | a list or dict id cannot be a dict key; `True`/`False` are stored as `1`/`0`; every other id is its own key |
| Values.NatToDecimal | tm_extractor.py:166-167 | the rendering of an id is a non-empty string of decimal digits |
| Values.NatToDecimalInjective | tm_extractor.py:166-167 | distinct naturals render as distinct digit strings |
| Values.SignOfDecimal | tm_extractor.py:166-167 | a rendered int starts with '-' exactly when it is negative |
| Values.IntToDecimalInjective | tm_extractor.py:166-167 | distinct ints render as distinct strings |
| Network.At | tm_extractor.py:276-280 | a call past the recorded replies fails without a response, as a timeout |
| Network.Backoffs | tm_extractor.py:255 | the backoff schedule has one sleep per failed attempt, the i-th being `backoff_base ** (from + i)` |
| MappingTypes.Lookup | tm_extractor.py:112-117 | `MAPPING_TYPES.get(key)` finds a name exactly for the four keys, and the name paired with the key |
| MappingTypes.NameAt | tm_extractor.py:156-157 | indexing the values succeeds exactly for 0..3 and yields the value at that position |
| MappingTypes.Normalize | tm_extractor.py:152-161 | whatever the current normaliser yields is one of the four canonical names |
| MappingTypes.LegacyNormalize | tm-extractor.py:44-50 | the earlier normaliser raises exactly on tokens that are neither int nor string; any name it yields is canonical |
| MappingTypes.NormalizeOrdinal | tm_extractor.py:154-158 | an int n yields a name exactly when 1 <= n <= 4, namely the n-th (1-based) |
| MappingTypes.NormalizeString | tm_extractor.py:159-160 | a string yields a name exactly when its upper-cased form is one of the four keys, and then the name paired with that key |
| MappingTypes.LegacyNormalizeOrdinal | tm-extractor.py:45-49 | an int never raises in the earlier revision; it yields a name exactly when -1 <= n <= 2, namely the (n+2)-th |
| MappingTypes.OrdinalConventionsDiffer | tm-extractor.py:44-50 | the earlier revision maps int n as the current maps n + 2; the two agree on every string |
| MappingTypes.NormalizeCaseInsensitive | tm_extractor.py:159-160 | a string and its upper-cased form normalise alike |
| MappingTypes.NormalizeKnownNames | tm_extractor.py:112-117 | any string whose upper-case is the i-th key yields the i-th name |
| MappingTypes.NormalizeLandUseSpelling | tm_extractor.py:159-160 | "land_use" yields "Landuse" |
| MappingTypes.NormalizeLanduseUnknown | tm_extractor.py:159-160 | "landuse" (the category's own spelling) yields nothing |
| MappingTypes.NormalizeOtherTypes | tm_extractor.py:161 | values other than ints and strings never normalise in the current revision |
| ConfigBuilder.CategoriesOf | tm_extractor.py:169 | a missing `categories` reads as `[]`; a present one is read as it is, whatever its type |
| ConfigBuilder.FirstMatch | tm_extractor.py:171-174 | `extract_values` over a list finds nothing exactly when every entry fails `key in category` without raising; otherwise its outcome (a value or a raise) is that of an entry preceded only by skipped entries |
| ConfigBuilder.FirstMatchIsFirst | tm_extractor.py:171-174 | a found value is the one in the first category holding the key |
| ConfigBuilder.ScanKeysAnyOrder | tm_extractor.py:171-174 | a dict of categories, scanned over its keys in any order, raises exactly when some key contains the name as a substring, and finds nothing otherwise |
| ConfigBuilder.TextEntrySkipped | tm_extractor.py:171-174 | a text entry "notes" is skipped for "Roads" and the dict after it gives the value |
| ConfigBuilder.TextEntryRaises | tm_extractor.py:171-174 | a text entry "Roads only" passes `"Roads" in category` and then raises at `category["Roads"]` |
| ConfigBuilder.SelectCategories | tm_extractor.py:176-181 | raises exactly when some requested name's scan raises; otherwise the output categories are single-key `{name: first value}` entries of requested names with truthy values, none repeated, every such name present, in any order |
| ConfigBuilder.GenerateFilteredConfig | tm_extractor.py:163-185 | succeeds exactly on a template with an object `dataset` whose categories scan without raising for every requested name. The copy differs only in: dataset prefix and title naming the project, the geometry argument, and the selected categories; every other key is unchanged. The template itself is a value and cannot change |
| ConfigBuilder.PrefixIdentifiesProject | tm_extractor.py:166-167 | projects with different int ids get different dataset prefixes and titles |
| Retry.TaskIdOf | tm_extractor.py:241-244 | on a body where the `task_id` test and lookup do not raise: the dict's `task_id` when it has one, `None` otherwise |
| Retry.RetryPost | tm_extractor.py:224-257 | the POST attempt loop computes exactly the attempt-by-attempt specification `PostFrom` (value, replies read, sleeps) |
| Retry.PostBounds | tm_extractor.py:226 | at most `max_retries + 1` attempts, at least one, and fewer sleeps than attempts |
| Retry.PostResultFromBody | tm_extractor.py:239-244 | a returned task id comes from the last reply read, a dict body carrying it; no earlier reply was a body that settled the call |
| Retry.PostAfterRateLimits | tm_extractor.py:245-262 | n rate-limit replies (429/502) then a settling body: n sleeps of `rate_limit_wait`, then the body's task id (or `None` for a dict without one) |
| Retry.PostRetriesRaisingBody | tm_extractor.py:239-257 | a body on which the `task_id` test or lookup raises (`None`, a number, a string or list holding "task_id") is a failed attempt: a backoff sleep and a retry, or `None` on the last attempt |
| Retry.PostNullThenTaskId | tm_extractor.py:239-257 | a `null` body then `{"task_id": "t1"}`: one sleep of `2 ** 0`, then "t1" |
| Retry.PostStringBodyRaises | tm_extractor.py:241-244 | a string body mentioning "task_id" passes the membership test and raises at the lookup |
| Retry.PostExhausted | tm_extractor.py:252-257 | only failed attempts (request failures or bodies on which the `task_id` test raises): `None` after `max_retries + 1` attempts with sleeps `base**0 .. base**(max_retries-1)` |
| Retry.PostOtherHttpError | tm_extractor.py:245-251 | another HTTP error retries at once with no sleep; any HTTP error on the final attempt returns `None` |
| Retry.RetryGet | tm_extractor.py:264-288 | the GET attempt loop computes exactly its specification `GetFrom` |
| Retry.GetAfterFailures | tm_extractor.py:281-286 | k failed attempts then a body: the body, after the k backoff sleeps |
| Retry.GetExhausted | tm_extractor.py:285-288 | every attempt failing: the `{"status": "ERROR", "message": ...}` body of the last error, after `max_retries` backoff sleeps |
| Retry.GetResult | tm_extractor.py:264-288 | a GET reads 1..`max_retries + 1` replies and returns the last one's body, or the ERROR body of its error |
| Retry.GetProjectDetails | tm_extractor.py:358-400 | the lookup loop computes exactly its specification `DetailsFrom` |
| Retry.DetailsBounds | tm_extractor.py:363 | at most `max_retries` attempts and at most one sleep per attempt |
| Retry.DetailsNotFound | tm_extractor.py:388-391 | a 404 ends the lookup at once with `None`, no sleep, no further attempt |
| Retry.ProjectFieldsRaise | tm_extractor.py:376-386 | a reply is complete, lacking or raising, never two: the field test or the indexing raises exactly on `None`, a number or a bool, or on a string or list holding both names |
| Retry.DetailsRetryPolicy | tm_extractor.py:376-395 | a reply lacking `mappingTypes`/`areaOfInterest` (in a dict, a string or a list) retries without sleeping; a reply on which the test or the indexing raises, and any non-404 error, sleeps `backoff_base ** retry` first |
| Retry.DetailsNullBodySleeps | tm_extractor.py:376-395 | a `null` body (an empty response) raises at `in`: one backoff sleep, then the next attempt |
| Retry.DetailsFound | tm_extractor.py:384-387 | a found project is the feature built from the last reply (which has both fields), with the requested id |
| Retry.DetailsExhausted | tm_extractor.py:392-400 | all failures: `None` after `max_retries` attempts, each followed by its backoff sleep |
| Retry.GetActiveProjects | tm_extractor.py:402-437 | the query loop computes exactly its specification `ActiveFrom` |
| Retry.ActiveRetryPolicy | tm_extractor.py:418-432 | a reply without `features` (in a dict, a string or a list) retries without sleeping; a reply on which `in` or `data["features"]` raises, and any error, sleeps `backoff_base ** retry` first |
| Retry.ActiveFound | tm_extractor.py:418-432 | at most `max_retries` attempts and one sleep each; a result is the `features` of the last reply read, a dict holding that key |
| Pipeline.MappingTokens | tm_extractor.py:195-196 | a list is iterated item by item; a string character by character |
| Pipeline.Normalized | tm_extractor.py:196-199 | the kept names are canonical and no more numerous than the tokens |
| Pipeline.NormalizedMembers | tm_extractor.py:196-199 | a name is kept exactly when some token normalises to it |
| Pipeline.NormalizeTokens | tm_extractor.py:196-199 | the normalising loop keeps the names of the tokens that normalise, in token order |
| Pipeline.ProcessProject | tm_extractor.py:187-222 | submits exactly when the project is well shaped, has a normalisable type and the template is buildable for its types (an object `dataset`, categories that scan without raising). The request sent is `generate_filtered_config`'s document for the project's id, geometry and types: dataset prefix and title, geometry and selected categories set, every other key of the template kept. The outcome is the POST loop's with its default three retries, or `None` |
| Pipeline.SkippedProjectUsesNoNetwork | tm_extractor.py:200-219 | a project with no supported type yields `None` without a request or sleep |
| Pipeline.SubmissionAttempts | tm_extractor.py:211 | a submitted project makes at most four POST attempts (the default, not `API_MAX_RETRIES`) |
| Pipeline.RoadsAndOrdinalTwo | tm_extractor.py:195-199 | `["roads", 2]` normalises to `["Roads", "Buildings"]` |
| Pipeline.RoadsAndBuildingsScenario | tm_extractor.py:176-181 | with a Roads and a Buildings category, the request holds exactly those two entries |
| Pipeline.SelectionOfTwo | tm_extractor.py:176-181 | a selection for two kept names holds their two entries and nothing else |
| Pipeline.FetchAllFeatures | tm_extractor.py:443-448 | failed lookups are dropped; each resolved project is the feature of a requested id |
| Pipeline.SubmitAllIds | tm_extractor.py:466-471 | kept ids are truthy, at most one per project |
| Pipeline.SubmitAllUnsupported | tm_extractor.py:468-471 | when no project submits, nothing is kept, read or slept |
| Pipeline.FetchProjects | tm_extractor.py:443-448 | the lookup loop computes exactly `FetchAll` (found features in request order) |
| Pipeline.SubmitProjects | tm_extractor.py:466-471 | the submission loop computes exactly `SubmitAll` (truthy ids in project order) |
| Pipeline.InitCall | tm_extractor.py:439-477 | `init_call` computes exactly `InitSpec`: lookups, then the active query, then submissions; an unusable active list raises |
| Pipeline.InitCallWithoutProjects | tm_extractor.py:461-463 | no ids and no active query: `[]`, with no call made |
| Pipeline.InitCallIds | tm_extractor.py:466-477 | every returned id is truthy |
| Tracker.PollProgress | tm_extractor.py:319-339 | a poll that does not end the loop has read a reply of the finite oracle, so the loop ends |
| Tracker.ErrorBodyIsTerminal | tm_extractor.py:288 | the ERROR body of an exhausted GET ends the poll loop |
| Tracker.PollUntilDone | tm_extractor.py:319-339 | the `while True` loop computes exactly `PollFrom`: sleep, poll, until a terminal status |
| Tracker.TrackTask | tm_extractor.py:303-348 | one task's handling computes exactly `TaskFrom` |
| Tracker.TrackTasksStatus | tm_extractor.py:290-348 | the tracking loop computes exactly `TrackSpec`: the results map, keyed by each id's dict key, and the completion count; nothing for no ids; a crash for a list or dict id |
| Tracker.TrackedKeys | tm_extractor.py:296-348 | a completed run had no list or dict id, its results map has exactly the ids' dict keys, and the completion count is the number of ids |
| Tracker.UnhashableIdCrashes | tm_extractor.py:301-348 | a list or dict id is polled, then storing its outcome raises and tracking stops |
| Tracker.OneAndTrueShareAKey | tm_extractor.py:301-348 | ids `1` and `True` produce a single results entry, while the completion count is 2 |
| Tracker.NoTasksNoCalls | tm_extractor.py:292-294 | an empty id list reads, sleeps and writes nothing |
| Tracker.SuccessOnFirstPoll | tm_extractor.py:305-306 | SUCCESS first stores `result` (`None` when absent) after one poll |
| Tracker.UnknownFirstStatus | tm_extractor.py:340-343 | any other first status stores `FAILURE: <message or 'Unknown error'>` |
| Tracker.PollAfterPending | tm_extractor.py:319-332 | n pending polls then a terminal one: n + 1 polls, n + 1 poll-interval sleeps, the terminal `result` (or "No result available") stored |
| Tracker.PendingPendingSuccess | tm_extractor.py:313-339 | PENDING, PENDING, SUCCESS: three polls and two poll-interval sleeps, the success `result` stored |
| Tracker.SilentStatusService | tm_extractor.py:285-343 | an unreachable status service stores the failure note of the GET's last error, after the backoff sleeps |
| LegacyConfig.Restricted | tm-extractor.py:55 | a restricted category holds exactly its requested keys, values unchanged |
| LegacyConfig.RestrictEntry | tm-extractor.py:55 | one entry raises exactly when `key in category` or `category[key]` raises for some requested name; otherwise a dict keeps its requested keys and any other entry becomes `{}` |
| LegacyConfig.TextEntry | tm-extractor.py:55 | a text entry becomes `{}`, and raises exactly when it contains a requested name |
| LegacyConfig.RestrictItems | tm-extractor.py:55 | the list comprehension succeeds exactly when every entry does, and then keeps the number and order of entries, each restricted |
| LegacyConfig.RestrictAll | tm-extractor.py:55 | every resulting category is a dict holding requested names only; a list is restricted entry by entry; a value that is not a list, string or dict raises |
| LegacyConfig.TextCategoryEmptied | tm-extractor.py:55 | `["notes", {"Roads": v}]` for `{"Roads"}` becomes `[{}, {"Roads": v}]` |
| LegacyConfig.RestrictDicts | tm-extractor.py:55 | a list of dicts never raises and is restricted dict by dict |
| LegacyConfig.RestrictEntryTwice | tm-extractor.py:55 | restricting an entry twice is restricting it once to both type sets |
| LegacyConfig.RestrictItemsTwice | tm-extractor.py:55 | restricting a list twice is restricting it once to both type sets |
| LegacyConfig.RestrictedTwice | tm-extractor.py:55 | restricting twice is restricting once to the intersection |
| LegacyConfig.RewriteResult | tm-extractor.py:52-57 | a successful rewrite: dataset renamed, geometry replaced, same number of categories each restricted, every other key unchanged |
| LegacyConfig.RestrictAllTwice | tm-extractor.py:55 | restricting every category twice is restricting it once to both type sets |
| LegacyConfig.RewriteCategories | tm-extractor.py:55 | after a rewrite the categories are the restricted ones, and a second rewrite succeeds |
| LegacyConfig.RewritesAccumulate | tm-extractor.py:52-57 | rewriting with T1 then T2 equals one rewrite with T1 ∩ T2: the filtering accumulates across projects |
| LegacyConfig.MeetMembers | tm-extractor.py:55 | a name survives a series of calls exactly when every call requested it |
| LegacyConfig.AfterRewritesAppend | tm-extractor.py:52-57 | calls applied in two batches leave what the whole series leaves |
| LegacyConfig.RewritesNarrow | tm-extractor.py:52-57 | after any series of calls whose first succeeds, the configuration is one rewrite with the last call's id and geometry and the names every call requested; its categories are the original ones restricted to T1 ∩ … ∩ Tk |
| LegacyConfig.RewriteIdempotent | tm-extractor.py:52-57 | repeating a call with the same arguments changes nothing more |
| LegacyConfig.FailedRenameKeepsConfig | tm-extractor.py:53 | a configuration without an object `dataset` is left untouched |
| Legacy.SubmitAfterRateLimits | tm-extractor.py:86-96 | n rate-limit refusals then a task id: n pauses of 61 seconds, then that id |
| Legacy.NormalizedAll | tm-extractor.py:64 | normalising raises exactly when some token is neither int nor string; kept names are canonical |
| Legacy.UnsupportedProjectSkipped | tm-extractor.py:60-70 | no normalisable type: `None`, configuration untouched, nothing sent |
| Legacy.DetailsOfFeature | tm-extractor.py:130-139 | a lookup succeeds exactly on a body holding `mappingTypes` and `areaOfInterest`, building the same feature as the current revision |
| Legacy.ActiveOfFeatures | tm-extractor.py:141-145 | the active query succeeds exactly on a body holding `features`, and returns them |
| Legacy.FetchAllLookups | tm-extractor.py:150-153 | the lookups never sleep; success gives one feature per id, in order, from that id's reply; a failure is the first failing lookup's error, right after its reply |
| Legacy.ProcessSpecRewrite | tm-extractor.py:60-70 | `process_project` changes the configuration only through its one rewrite; a rewrite that fails makes it raise |
| Legacy.SubmitOneConfig | tm-extractor.py:161 | one project of the comprehension leaves the configuration its zero, one or two rewrites produce |
| Legacy.SubmitAllConfig | tm-extractor.py:161 | the comprehension leaves the configuration its rewrites, applied in order, produce |
| Legacy.SubmitAllFirstRewrite | tm-extractor.py:161 | a comprehension that completes had its first rewrite succeed |
| Legacy.SubmitAllNarrows | tm-extractor.py:161 | a completed comprehension leaves the configuration untouched or rewritten once for the last project with the names every rewrite requested: the categories are the original ones restricted to T1 ∩ … ∩ Tk |
| Legacy.DoubleSubmission | tm-extractor.py:161 | a project yielding an id is rewritten and submitted twice; the id kept is the second submission's |
| Legacy.NormalizedErrorSticks | tm-extractor.py:64 | once the normalising loop raises, the whole comprehension raises that error |
| Legacy.LegacyProcessor.constructor | tm-extractor.py:26-34 | the processor holds the loaded configuration |
| Legacy.LegacyProcessor.GenerateFilteredConfig | tm-extractor.py:52-57 | rewrites `config` in place to `AfterRewrite(old config)`, succeeds exactly when the rewrite does, and returns the new configuration |
| Legacy.LegacyProcessor.RestrictCategory | tm-extractor.py:55 | the inner comprehension on one entry computes `RestrictEntry`: the entry restricted to the requested names, or the raise |
| Legacy.LegacyProcessor.RestrictCategories | tm-extractor.py:55 | the outer comprehension over whatever the configuration's `categories` is computes `RestrictAll` |
| Legacy.LegacyProcessor.RestrictEntries | tm-extractor.py:55 | the outer comprehension over a list (or a string's characters) computes `RestrictItems` |
| Legacy.LegacyProcessor.RestrictKeys | tm-extractor.py:55 | the outer comprehension over a dict's keys, in any order, computes `RestrictAll` |
| Legacy.LegacyProcessor.NormalizeTokens | tm-extractor.py:64 | the comprehension computes `NormalizedAll` |
| Legacy.LegacyProcessor.ProcessProject | tm-extractor.py:60-70 | outcome and new configuration are those of `ProcessSpec` on the old configuration |
| Legacy.LegacyProcessor.FetchProjects | tm-extractor.py:150-153 | one unretried lookup per id, in order; the first failing one raises |
| Legacy.LegacyProcessor.SubmitProject | tm-extractor.py:161 | one element of the double-calling comprehension, as `SubmitOne` |
| Legacy.LegacyProcessor.SubmitProjects | tm-extractor.py:161 | the whole comprehension, as `SubmitAll`; configuration changes carry from project to project |
| Legacy.LegacyProcessor.InitCall | tm-extractor.py:147-164 | `init_call` computes `InitSpec` and leaves the configuration it describes |
| LegacyTracker.TrackTask | tm-extractor.py:110-125 | one task's handling computes exactly `TaskFrom` |
| LegacyTracker.TrackTasksStatus | tm-extractor.py:107-128 | the tracking loop computes exactly `TrackFrom` from an empty map, storing each outcome under the id's dict key |
| LegacyTracker.TaskBounds | tm-extractor.py:112-125 | at most two polls and one 30-second pause per task; stored is `FAILURE` or the `result` of a SUCCESS reply |
| LegacyTracker.FailedPollRaises | tm-extractor.py:98-114 | a failed status request (swallowed into `{}`) makes the tracker raise |
| LegacyTracker.TrackedKeys | tm-extractor.py:107-125 | a completed run had no list or dict id, and its results have exactly the ids' dict keys; no ids: an empty map, nothing read |
| LegacyTracker.UnhashableIdRaises | tm-extractor.py:110-125 | a list or dict id is polled, then storing its outcome raises |
| ResultAnalyzer.DigitRun | utils/result_analyzer.py:16 | the greedy `\d+`: the longest run of digits at the start |
| ResultAnalyzer.WordRun | utils/result_analyzer.py:16 | the greedy `\w+`: the longest run of word characters at the start |
| ResultAnalyzer.CountMatchOf | utils/result_analyzer.py:16-21 | "<digits> <unit>…" matches the first alternative with exactly those digits and that unit |
| ResultAnalyzer.ElapsedOfCount | utils/result_analyzer.py:16-27 | "<digits> <unit>…" is `int(digits) * mapping.get(unit, 1)` seconds |
| ResultAnalyzer.ArticleMatchOf | utils/result_analyzer.py:16-24 | "a <unit>…"/"an <unit>…" match only the second alternative, with that unit |
| ResultAnalyzer.ElapsedOfArticle | utils/result_analyzer.py:22-27 | "a <unit>…"/"an <unit>…" is one unit's seconds |
| ResultAnalyzer.PluralUnitCountsOne | utils/result_analyzer.py:9-27 | "2 minutes" is 2 seconds: a plural unit gets multiplier 1 |
| ResultAnalyzer.ArticleCountsOneUnit | utils/result_analyzer.py:9-27 | "an hour ago" is 3600 seconds |
| ResultAnalyzer.ElapsedNoMatch | utils/result_analyzer.py:16-28 | text starting with neither a digit nor an article counts 0 |
| ResultAnalyzer.GetN | utils/result_analyzer.py:61 | a defaultdict read: the stored count, or 0 |
| ResultAnalyzer.MapSumUpdate | utils/result_analyzer.py:60-61 | `dataset_counts[name] += n` adds n to the sum of the counts |
| ResultAnalyzer.Tally | utils/result_analyzer.py:59-61 | tallying a dataset's counts keeps every earlier name and adds the new ones |
| ResultAnalyzer.MapSumTally | utils/result_analyzer.py:59-61 | tallying adds the dataset's total to the sum of the counts |
| ResultAnalyzer.SumKeysListing | utils/result_analyzer.py:59 | summing in any listing of the names, each once, gives the same total: visiting order does not matter |
| ResultAnalyzer.Field | utils/result_analyzer.py:48 | `info[key]` succeeds exactly on a dict holding the key, and yields its value |
| ResultAnalyzer.ResourceCount | utils/result_analyzer.py:60 | `len(resources["resources"])` succeeds exactly on a dict whose `resources` has a length |
| ResultAnalyzer.CountsOf | utils/result_analyzer.py:59-61 | one count per dataset name, that name's resource count |
| ResultAnalyzer.AddSeconds | utils/result_analyzer.py:54 | `started_at + elapsed_time` succeeds exactly up to `datetime.max`, keeps naive or aware, and moves the instant by the elapsed seconds |
| ResultAnalyzer.Latest | utils/result_analyzer.py:63 | `max(end_times)`: an element whose instant is at least every element's |
| ResultAnalyzer.Earliest | utils/result_analyzer.py:63 | `min(start_times)`: an element whose instant is at most every element's |
| ResultAnalyzer.ParseTask | utils/result_analyzer.py:48-56 | a parsed task's start, elapsed seconds and datasets are those the entry's fields give; its elapsed time is under timedelta's limit, its end is within `datetime.max`, of the start's kind, and later by the elapsed seconds |
| ResultAnalyzer.ParseTaskOverflows | utils/result_analyzer.py:51-54 | a billion days or more raises in `timedelta`; an end past `datetime.max` raises in the addition |
| ResultAnalyzer.ThreeMillionDays | utils/result_analyzer.py:16-27 | "3000000 day" is 259200000000 seconds |
| ResultAnalyzer.EndPastMaxRaises | utils/result_analyzer.py:48-54 | a naive start of 2024-01-01T00:00:00 with "3000000 day" elapsed makes the call raise `OverflowError` |
| ResultAnalyzer.StringTaskRaises | utils/result_analyzer.py:42-48 | a non-marker string entry raises when its start is read |
| ResultAnalyzer.AddAllKeepsSum | utils/result_analyzer.py:58-61 | tallying datasets keeps the counts summing to `total_resources` |
| ResultAnalyzer.AddFieldsFails | utils/result_analyzer.py:60 | a dataset entry without a sized resource list raises |
| ResultAnalyzer.AddDataset | utils/result_analyzer.py:59-61 | one dataset's pass computes exactly `AddOne` (its counts tallied and totalled, or the raise) |
| ResultAnalyzer.TallyFields | utils/result_analyzer.py:59-61 | the loop over a dataset's names, visited in any order, computes exactly `AddFields` |
| ResultAnalyzer.AddDatasets | utils/result_analyzer.py:58-61 | the loop over a task's datasets computes exactly `AddAll` |
| ResultAnalyzer.AddAllErrSticks | utils/result_analyzer.py:58-61 | a raise in one dataset ends the loop with that error |
| ResultAnalyzer.Summarize | utils/result_analyzer.py:63-73 | a report is built exactly when the loop finished, some task succeeded, neither time list mixes naive and aware times and both lists are of one kind; no end time raises `max`'s `ValueError`, mixed end times its `TypeError` |
| ResultAnalyzer.SummaryCarries | utils/result_analyzer.py:65-73 | the report carries the loop's task, dataset and resource totals and the per-name counts unchanged |
| ResultAnalyzer.SpanCovers | utils/result_analyzer.py:63 | `total_elapsed_time` is at least the span from any recorded start to any recorded end |
| ResultAnalyzer.FailureCount | utils/result_analyzer.py:42-44 | the markers are at most the entries |
| ResultAnalyzer.AddEntry | utils/result_analyzer.py:41-61 | one iteration computes exactly `Step`: a marker counts as failed, anything else is read as a task |
| ResultAnalyzer.AddTaskDatasets | utils/result_analyzer.py:46-61 | a successful task computes exactly `AddTask`: counts, datasets and resources updated, its start and the end `ParseTask` computed (within `datetime.max`) appended |
| ResultAnalyzer.ProcessJson | utils/result_analyzer.py:31-73 | `process_json` computes exactly `ProcessSpec`: the loop's totals turned into the report |
| ResultAnalyzer.AccumulateErrSticks | utils/result_analyzer.py:41-61 | a raise in one entry ends the loop with that error |
| ResultAnalyzer.AccumulateCounts | utils/result_analyzer.py:41-55 | successful plus failed is the number of entries; failed are exactly the markers; one start and end per success |
| ResultAnalyzer.AccumulateDatasets | utils/result_analyzer.py:56-57 | `total_datasets` is the sum of `len(datasets)` over the successful tasks |
| ResultAnalyzer.AccumulateSum | utils/result_analyzer.py:56-61 | `dataset_counts` always sums to `total_resources` |
| ResultAnalyzer.AccumulateTasks | utils/result_analyzer.py:48-55 | every non-marker entry parsed, with its start and end among the recorded times |
| ResultAnalyzer.ReportTotals | utils/result_analyzer.py:63-73 | the report's task, dataset and resource totals agree as above |
| ResultAnalyzer.ElapsedCovered | utils/result_analyzer.py:48-63 | a recorded task's own elapsed time is within `total_elapsed_time` |
| ResultAnalyzer.ReportCoversTasks | utils/result_analyzer.py:48-63 | in a report, every successful task parsed and `total_elapsed_time` is at least its elapsed time |
| ResultAnalyzer.AllFailures | utils/result_analyzer.py:42-44 | markers only: the loop completes, counting every entry as failed and nothing else |
| ResultAnalyzer.NoSuccessRaises | utils/result_analyzer.py:63 | no successful task (an empty report included): `max(end_times)` raises |
| ResultAnalyzer.MalformedEntryRaises | utils/result_analyzer.py:48 | an entry neither a marker nor a well-formed task (such as "FAILURE: timeout") makes the call raise |
| ResultAnalyzer.MixedEnds | utils/result_analyzer.py:54-55 | two recorded tasks started naive and aware leave both kinds among the end times |
| ResultAnalyzer.MixedTimesRaise | utils/result_analyzer.py:48-63 | a naive and an aware start among the successful tasks make the call raise; when the loop completes it is `max`'s `TypeError` |

## Left out

- **Network stack.** Real HTTP (`aiohttp`, `requests`), headers, timeouts and the async/await scheduling are replaced by the reply oracle. `asyncio.sleep`/`time.sleep` are recorded, not performed. Logging, `tqdm` and sentry are not modelled.
- **Start-up and entry points.** `validate_environment`, `__init__` configuration loading from disk or environment (`tm_extractor.py:119-150`, `tm-extractor.py:26-42`), `lambda_handler`, argument parsing and `main` are not modelled. The numeric settings are the `Pipeline.Settings` parameter and the template is a parameter. `Legacy.LegacyProcessor.constructor` takes the already-loaded configuration.
- **Serialisation.** `json.dumps` of the request config and writing `result.json` are not modelled. The builders return the document, and the trackers return the results map. `json.load` and `analyze_json` in the analyser are not modelled either.
- **Text handling.**
  - `str.upper()` is ASCII-only.
  - The regex classes `\d` and `\w` are ASCII-only.
  - `str()` of a list or dict renders as the empty string (`Values.Str`). This reaches the tracker's failure notes and the request document; see the line on `ConfigBuilder.GenerateFilteredConfig` below.
- **Python's iteration order.**
  - Set iteration order (`set(mapping_types)`) is left open: `ConfigBuilder.SelectCategories` may produce the categories in any order, and its contract is order-independent.
  - A `categories` value that is a dict is iterated over its keys. `ConfigBuilder.Scan` and `LegacyConfig.RestrictAll` are stated so that their results do not depend on the key order (`ConfigBuilder.ScanKeysAnyOrder`, `Legacy.LegacyProcessor.RestrictKeys`).
  - In the analyser, a dataset's names are visited in any order, and `ResultAnalyzer.SumKeysListing` shows the totals do not depend on it.
  - The report's entries are an ordered list of `(task_id, task_info)` pairs.
- **Time.** `datetime.fromisoformat` is a parameter mapping a string to a `ResultAnalyzer.Stamp`: whole seconds since 0001-01-01T00:00:00 on the wall clock, and the UTC offset when there is one. Fractions of a second are dropped, so two times within the same second compare as equal. The `timedelta` string rendering of `total_elapsed_time` is not modelled: the report keeps the value in seconds.
- Pipeline.MappingTokens, Legacy.Tokens: a `mapping_types` value that is a dict contributes no token, where Python iterates over its keys. The names that result would not depend on the key order. But both normalising loops run over a token sequence, and a `map` has no sequence of keys until an order is chosen; the model leaves the case out rather than fix one. The Tasking Manager sends a list.
- **Earlier revision's active-project list.** When `extend` receives a string or dict, it adds characters or keys on which `process_project` raises at once. The model adds empty-string placeholders with the same effect (`Legacy.Extension`).
- **Current revision's active-project list.** When `extend` receives a string or dict, the elements it adds are never submitted. The model drops them (`Pipeline.ActiveProjects`).
- **Earlier `retry_post_request` (`tm-extractor.py:73-92`).** urllib3's `Retry` is collapsed to one oracle reply per session call:
  - a 429 reply stands for the session giving up (`RetryError`), which pauses 61 seconds and resubmits;
  - any other error escapes.
  - urllib3's internal retry and its `backoff_factor` sleep are not modelled.
- **Dict key identity.** When ids `1` and `True` both reach a tracker's results map, Python keeps the key object inserted first and the later value. The model stores the int `1` and the later value (`Values.DictKey`). The two differ only in how `result.json` would render the key, and serialisation is not modelled.
- ConfigBuilder.GenerateFilteredConfig, LegacyConfig.AfterRewrite: a list or dict `project_id` gives the dataset prefix "hotosm_project_" and a title with an empty id, where Python writes the value's `repr` (such as "hotosm_project_[1, 2]"). Python's `repr` of containers, with its quoting and dict order, is not modelled. The Tasking Manager's ids are numbers.
- **Floats.** `Values.Json` has no floating-point numbers. A float `mapping_types` entry normalises to `None` in the current revision and raises `AttributeError` in the earlier one; the model cannot express either.
- **Exception messages.** Messages carried by `Err` are descriptive, not Python's exact text.
- **`streamlit_app.py`** is not part of this model: it is a user interface.
