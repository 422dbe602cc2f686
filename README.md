# Run-property pipeline of the Fast Downward log parsers, in Dafny

This project models the part of the lab experiment framework that turns the
log of a planner run into the run's properties. The properties are a map
from attribute names to values, written step by step by the parse functions
of three Fast Downward parsers:

- the search parser (`downward/scripts/search_parser.py`);
- the single-search parser (`downward/scripts/single-search-parser.py`);
- the preprocess parser (`downward/scripts/preprocess_parser.py`).

It also models the experiment steps of `lab/steps.py`: a `Step` that runs its
function at most once, lookup of a step by number or by name, and the text
listing of all steps.

The properties of one run are a `Properties` object (`RunProps`). It holds
`entries`, a `map<string, Value>` that the parse functions update in place,
and `unexplainedErrors`, the list that `add_unexplained_error` appends to. A
`Value` is Python's `None`, a boolean, an int or float (`Number`), a string,
a list of numbers, or a table from heuristic names to lists of initial h
values (`initial_h_values`). Python's truthiness, `dict.get` and the equality of
`1`, `1.0` and `True` are spelled out in `RunProps`. A log is given as its
lines.

Every parse step that changes the properties is a method that updates a
`Properties` object. Its `ensures` ties the new map to a specification function of the old one.
Lemmas about those functions state what the source promises: which keys are
written, first-writer-wins against overwrite, the thresholds and the order
of the error cascade.

Modules:

- `Wrappers`: `Option`, `Result` and the pass/fail outcome of assertions.
- `Text`: the Python string operations used (`startswith`, `in`,
  `isdigit`, `%d`, `split`, `lower`, `replace`, `ljust`, `rjust`, `join`).
- `RunProps`: values, the property map, truthiness, `successful`/`solved`.
- `Collector`: the line scans shared by both search parsers. This covers:
  - the iterative collector up to the `Cumulative statistics:` sentinel,
    including the surplus `search_time` and the group-length check;
  - storing the `_all` lists and the minima;
  - the cumulative pass after the last sentinel;
  - `set_search_time`;
  - the minimum-time floor.
- `Scoring`: the clamp and the `None` branch of `log_score`, with the
  logarithm as a parameter.
- `SearchParser`, `SingleSearchParser`, `PreprocessParser`, `Steps`: the
  functions of the four source files.

Regular expressions are not modelled character by character. Each pattern
of a pattern table is a function from a line to an optional number
(`Collector.Pattern`). The same holds for:

- the initial-heuristic matchers;
- the translator-timestamp matcher;
- the `begin_variables` block, given as the lines of its regex group.

The mutex-group patterns are modelled on the lines of the `all.groups`
content: a `begin_groups` line followed by a line of digits, and a `group`
line followed by a line with leading digits.

`logging.critical` in `lab/steps.py` is modelled as ending the run of the
experiment. `Step.Call` and `GetStep` return it as an outcome or a failure
message. `lab/tools.py`, whose handler decides what a critical message does,
is not part of this model.

## Model

| member | source | states |
|---|---|---|
| RunProps.Successful | downward/scripts/search_parser.py:48-52 | `run['coverage'] or run['unsolvable']` is truthy iff coverage is truthy or unsolvable is truthy, and it is coverage itself whenever coverage is truthy |
| RunProps.Properties.AddUnexplainedError | downward/scripts/single-search-parser.py:85 | `add_unexplained_error` appends exactly one error and changes no property |
| Collector.FirstMatch | downward/scripts/search_parser.py:137-143 | the pattern that claims a line is the first one in table order that matches it; none claims a line no pattern matches |
| Collector.ScanLimit | downward/scripts/search_parser.py:132-136 | the iterative scan covers exactly the lines before the first line equal to `Cumulative statistics:` |
| Collector.ClaimLine | downward/scripts/search_parser.py:137-143 | the inner pattern loop returns the claim of the first matching pattern, with its value |
| Collector.Claims | downward/scripts/search_parser.py:132-143 | at most one claim per line, each naming an attribute of the pattern table |
| Collector.GroupBy | downward/scripts/search_parser.py:130-141 | the `defaultdict(list)` the appends build: every list it holds is non-empty |
| Collector.GroupByIsFilter | downward/scripts/search_parser.py:141 | appending to a `defaultdict(list)` gives each name exactly the values claimed for it, in line order; the keys are exactly the names claimed |
| Collector.CollectIterative | downward/scripts/search_parser.py:130-143 | the scan loop builds exactly the grouping of the claims of the scanned lines, stopping at the sentinel when asked |
| Collector.Trimmed | downward/scripts/search_parser.py:148-149 | when `search_time` outnumbers `expansions` exactly its last element is removed, nothing else changes, and afterwards it no longer outnumbers them if it had at most one surplus |
| Collector.PopSurplusSearchTime | downward/scripts/single-search-parser.py:119-120 | the pop is the trimming above |
| Collector.SameLengthIff | downward/scripts/single-search-parser.py:77-78 | `len(set(len(x) for x in group)) == 1` holds iff the group is non-empty and all its lists have one common length |
| Collector.GroupListsTouchAll | downward/scripts/search_parser.py:155-158 | reading a group out of a `defaultdict` adds empty lists but changes no list |
| Collector.CheckGroup | downward/scripts/search_parser.py:152-158 | the check answers `same_length` of the group's lists and returns the map with the group's keys touched |
| Collector.AllKeyInjective | downward/scripts/search_parser.py:160-161 | two different names never share an `_all` key |
| Collector.MinIndex | downward/scripts/search_parser.py:163-165 | Python's `min` picks the first smallest element of a non-empty list |
| Collector.MinimumAttributesAreNotAllKeys | downward/scripts/search_parser.py:160-165 | storing `cost`/`plan_length` cannot overwrite an `_all` list |
| Collector.StoreOneList | downward/scripts/search_parser.py:160-161 | storing one more list keeps every stored list and every key outside the lists |
| Collector.StoreLists | downward/scripts/search_parser.py:160-161 | every list is stored under `name_all`; keys that are not `_all` keys of a collected name keep their value |
| Collector.StoreMinimum | downward/scripts/search_parser.py:163-165 | `cost` or `plan_length` becomes the list minimum only when its list is non-empty; every other key is kept |
| Collector.StoreIterative | downward/scripts/single-search-parser.py:87-92 | all lists are stored, both minima are set where their lists are non-empty, and every other key is kept |
| Collector.AfterLastSentinel | downward/scripts/search_parser.py:176-181 | the bottom-up scan sees exactly the lines after the last sentinel, and none of them is a sentinel |
| Collector.AfterLastSentinelAt | downward/scripts/search_parser.py:176-181 | the lines after the last sentinel start right after any sentinel with no sentinel below it |
| Collector.FirstHit | downward/scripts/search_parser.py:178-185 | the value left by a bottom-up scan with no break is that of the matching line nearest the sentinel; there is none iff no line matches |
| Collector.LastHitIsLast | downward/scripts/search_parser.py:290-294 | the value a top-down reading keeps last comes from the last matching line, and there is none iff no line matches |
| Collector.LastHitPrepend | downward/scripts/search_parser.py:290-294 | a line above the others counts only when no line below it matches |
| Collector.LastHitSuffix | downward/scripts/search_parser.py:295-297 | once a match is found in a suffix, the lines above it cannot change the last match |
| Collector.WithHit | downward/scripts/search_parser.py:182-185 | a pattern overwrites its key when it has a hit and leaves it alone otherwise; no other key changes |
| Collector.StoreHitsValueOf | downward/scripts/search_parser.py:177-185 | when the names are distinct, each pattern's key holds that pattern's own hit after all patterns have run |
| Collector.StoreHitsElsewhere | downward/scripts/search_parser.py:177-185 | running the patterns changes no key outside their names |
| Collector.CumulativeValueOf | downward/scripts/search_parser.py:176-185 | after the cumulative pass each pattern's key holds its first match after the last sentinel, overwriting any earlier value, or is unchanged when there is none |
| Collector.CumulativeValuesElsewhere | downward/scripts/search_parser.py:176-185 | the cumulative pass writes only the pattern names |
| Collector.ScanUpToSentinel | downward/scripts/single-search-parser.py:138-145 | the inner reverse loop for one pattern stores exactly that pattern's hit after the last sentinel |
| Collector.CumulativePass | downward/scripts/single-search-parser.py:136-145 | the outer loop over the patterns leaves the properties equal to the cumulative values of the old ones |
| Collector.FilledSearchTime | downward/scripts/search_parser.py:194-199 | an existing `search_time` is never overwritten; it is added, as the sum of `search_time_all`, iff that list is truthy; no other key changes |
| Collector.SetSearchTime | downward/scripts/single-search-parser.py:154-159 | `set_search_time` leaves the properties as the filled map above |
| Collector.AtLeast | downward/scripts/search_parser.py:281-282 | `max(sec, floor)` is at least the floor, keeps a value at or above the floor, and otherwise gives the floor |
| Collector.RaiseValue | downward/scripts/search_parser.py:279-282 | a `None` time stays `None`; a number ends at or above the floor and is kept when already there |
| Collector.RaiseValueIdempotent | downward/scripts/search_parser.py:278-282 | raising a time to the floor twice is raising it once |
| Collector.RaisedTimes | downward/scripts/single-search-parser.py:248-251 | the time floor never adds or removes a key and changes only `search_time` and `total_time` |
| Collector.RaiseTimesToFloor | downward/scripts/single-search-parser.py:248-251 | the loop over the two time attributes leaves the properties raised as above |
| Scoring.Clamp | downward/scripts/search_parser.py:250-253 | the clamped value lies between the bounds, is the value itself inside them and the bound outside them |
| Scoring.ClampIsMinOfMax | downward/scripts/single-search-parser.py:215-216 | `min(max(value, lo), hi)` is the same clamp as the two `if`s of the other parser, also for crossed bounds |
| Scoring.RatioAtMostLower | downward/scripts/search_parser.py:250-256 | a value at or below the lower bound scores exactly 1 |
| Scoring.RatioAtLeastUpper | downward/scripts/search_parser.py:252-256 | a value at or above the upper bound scores exactly 0 |
| Scoring.RatioInUnit | downward/scripts/single-search-parser.py:215-219 | for any increasing logarithm and ordered bounds the score lies in [0, 1] |
| Scoring.RatioAntitone | downward/scripts/single-search-parser.py:215-219 | a larger value never scores higher |
| Scoring.BoundsDiffer | downward/scripts/single-search-parser.py:217-219 | distinct positive bounds make `best_raw_score` non-zero |
| Scoring.LogScore | downward/scripts/single-search-parser.py:212-219 | `None` scores the integer 0, a value at or below the lower bound 1.0, and one at or above the upper bound 0.0 |
| Scoring.PercentScore | downward/scripts/search_parser.py:247-257 | `None` scores 0; the bounds score 100 and `100 * min_score` |
| Scoring.PercentScoreInRange | downward/scripts/search_parser.py:247-257 | with minimum score 0 every score is between 0 and 100 |
| SearchParser.IterativeValues | downward/scripts/search_parser.py:130-158 | the lists collected above the sentinel, with the surplus search time dropped; every attribute of both groups has a list |
| SearchParser.IterativeValuesLists | downward/scripts/search_parser.py:132-149 | every list except `search_time` holds exactly the claimed values in line order, and every group key is present after the check |
| SearchParser.CheckGroups | downward/scripts/search_parser.py:151-158 | both group assertions pass iff both groups have a common length; the first failing group stops the check |
| SearchParser.GetIterativeResults | downward/scripts/search_parser.py:124-165 | the properties get the `_all` lists and minima iff both groups pass; a failing assertion changes nothing |
| SearchParser.GetIterativePortfolioResults | downward/scripts/search_parser.py:97-121 | the portfolio scan reads all lines, asserts only the cost group, and stores as above iff it passes |
| SearchParser.CumulativeNamesDistinct | downward/scripts/search_parser.py:79-94 | the cumulative pattern table names every attribute once |
| SearchParser.GetCumulativeResults | downward/scripts/search_parser.py:168-185 | each pattern's key holds its first match after the last sentinel, overwriting any earlier value, or is unchanged when there is none; no other key changes |
| SearchParser.CoverageFlag | downward/scripts/search_parser.py:218-220 | coverage is 0 or 1, and 1 iff `plan_length` or `cost` is present and `validate_error` is falsy |
| SearchParser.Coverage | downward/scripts/search_parser.py:218-220 | `coverage` writes only that flag |
| SearchParser.UnsolvableFlag | downward/scripts/search_parser.py:202-207 | unsolvable is 1 iff coverage is falsy and the content contains `unsolvable` or the explored-state-space message |
| SearchParser.Unsolvable | downward/scripts/search_parser.py:202-207 | `unsolvable` writes only that flag |
| SearchParser.SuccessfulAfterFlags | downward/scripts/search_parser.py:48-52 | after `coverage` and `unsolvable`, a run is successful iff it is covered or its log declares it unsolvable |
| SearchParser.MemoryChecked | downward/scripts/search_parser.py:232-237 | a successful run keeps its properties; an unsuccessful one gets `memory = None`; no other key changes |
| SearchParser.MemoryDroppedIff | downward/scripts/search_parser.py:236-237 | `check_memory` changes the map iff neither coverage nor unsolvable is truthy and `memory` is not already `None` |
| SearchParser.CheckMemory | downward/scripts/search_parser.py:232-237 | `check_memory` leaves the properties as above |
| SearchParser.InitialHValue | downward/scripts/search_parser.py:223-229 | an existing `initial_h_value` is kept; otherwise it is written iff some line matches, with the value of the first matching line; no other key changes |
| SearchParser.GetInitialHValue | downward/scripts/search_parser.py:223-229 | `get_initial_h_value` leaves the properties as above |
| SearchParser.MaxMemoryFallback | downward/scripts/search_parser.py:260 | a missing memory limit and a limit of 0 both fall back to 2048 MB |
| SearchParser.ScoreEntry | downward/scripts/search_parser.py:247-257 | each score is a number between 0 and 100, whatever the order of the bounds; `None` scores 0 and makes no demand on the bounds |
| SearchParser.SearchScores | downward/scripts/search_parser.py:262-271 | exactly the five score keys are written, each between 0 and 100 |
| SearchParser.Scores | downward/scripts/search_parser.py:240-271 | `scores` overwrites exactly the five score keys |
| SearchParser.CheckMinValues | downward/scripts/search_parser.py:274-282 | present times are raised to at least 0.1; absent ones stay absent |
| SearchParser.LastLoggedNamesDistinct | downward/scripts/search_parser.py:286-288 | the three last-logged attributes have distinct names |
| SearchParser.OfferLoggedLine | downward/scripts/search_parser.py:291-294 | reading one more line upward keeps, for each attribute, the match from the lowest line read so far |
| SearchParser.CompleteHitsSuffix | downward/scripts/search_parser.py:295-297 | once all three attributes are found, stopping early gives the same values as reading every line |
| SearchParser.UpdateWithFound | downward/scripts/search_parser.py:298 | `props.update(new_props)` stores the last logged values and nothing else |
| SearchParser.ParseLastLoggings | downward/scripts/search_parser.py:285-298 | each of the three attributes gets its value from the last matching line, is left alone when none matches, and no other key changes |
| SearchParser.TableError | downward/scripts/search_parser.py:342-355 | an exit code gets an error from the table iff it equals some code there |
| SearchParser.ExitCodeErrorsTable | downward/scripts/search_parser.py:342-355 | codes 2 to 8 and 152 map to their fixed error strings; 0, 1, 137, 139 and all others map to none |
| SearchParser.WithError | downward/scripts/search_parser.py:353-355 | the table writes only `error` |
| SearchParser.Tabled | downward/scripts/search_parser.py:335-355 | after the first part of `get_error`, `search_error` is gone and a text-or-`None` error stays one |
| SearchParser.Cleared | downward/scripts/search_parser.py:335-339 | deleting `search_error` and resetting coverage do not touch `error` |
| SearchParser.SigkillError | downward/scripts/search_parser.py:371-384 | exit 137 gives a probable timeout iff less than 5% of the time and more than 5% of the memory is left, the symmetric case gives a probable out-of-memory, and every result starts with `unexplained` |
| SearchParser.SigkillBoundary | downward/scripts/search_parser.py:379-384 | exactly 5% left of either resource always gives `unexplained-sigkill` |
| SearchParser.SigkillExamples | downward/scripts/search_parser.py:371-384 | with 1800 s and 2048 MB limits, 5% time left is an unexplained SIGKILL, and 3% memory left with half the time is a probable out-of-memory |
| SearchParser.RemainingFraction | downward/scripts/search_parser.py:372-377 | the fraction of a limit left at the last logged value, which counts as 0 when missing (so the fraction is 1) |
| SearchParser.FallbackError | downward/scripts/search_parser.py:359-386 | the cascade in order, first case wins: unsolvable flag 1 gives `probably-unsolvable-exitcode-N` with N the exit code, else `validate_error` 1 gives `unexplained-invalid-solution`, else `bad_alloc` gives `probably-out-of-memory-exitcode-N`, else exit 137 gives the SIGKILL rule applied to the remaining fractions of the run's time and memory limits, else `unexplained` |
| SearchParser.FallbackSigkillExample | downward/scripts/search_parser.py:371-384 | a SIGKILL with limits 1800 s and 2048 MB, no logged time and 1986.56 MB logged is a probable out-of-memory |
| SearchParser.FallbackUnexplained | downward/scripts/search_parser.py:359-386 | the cascade's error starts with `unexplained` iff the unsolvable flag is not 1 and either `validate_error` is 1 or the log has no `bad_alloc` |
| SearchParser.Explained | downward/scripts/search_parser.py:359-386 | the cascade keeps the error a text or `None` |
| SearchParser.Classified | downward/scripts/search_parser.py:301-389 | `get_error` as a function of the old properties: `search_error` is gone and only `coverage`, `error` and `unexplained_error` may change |
| SearchParser.ApplyExitCodeTable | downward/scripts/search_parser.py:353-355 | the loop over the table writes the error of the matching code, and only `error` |
| SearchParser.ClearStaleError | downward/scripts/search_parser.py:335-339 | the first lines of `get_error` give the cleared map |
| SearchParser.ExplainFailure | downward/scripts/search_parser.py:359-386 | the cascade writes the fallback error |
| SearchParser.FlagUnexplained | downward/scripts/search_parser.py:388-389 | the flag is set only for a truthy error |
| SearchParser.GetError | downward/scripts/search_parser.py:301-389 | `get_error` leaves the properties as its classification of the old ones |
| SearchParser.ClassifiedDropsSearchError | downward/scripts/search_parser.py:335-336 | `search_error` is always deleted |
| SearchParser.ClassifiedKnownErrorUncovers | downward/scripts/search_parser.py:338-339 | a pre-existing non-`None` error forces coverage 0 |
| SearchParser.ClassifiedByExitCode | downward/scripts/search_parser.py:342-355 | a table exit code decides the error, overriding any earlier value |
| SearchParser.ClassifiedWithoutFallback | downward/scripts/search_parser.py:359 | the cascade runs only when coverage is 0 and there is no error |
| SearchParser.ClassifiedWithFallback | downward/scripts/search_parser.py:359-386 | when the cascade runs, its first matching case decides the error |
| SearchParser.ClassifiedFlag | downward/scripts/search_parser.py:388-389 | whenever the error is truthy, `unexplained_error` says whether it starts with `unexplained`; otherwise the flag is unchanged |
| SearchParser.ClassifiedFrame | downward/scripts/search_parser.py:301-389 | `get_error` writes only `search_error`, `coverage`, `error` and `unexplained_error` |
| SearchParser.ClassifiedNotIdempotent | downward/scripts/search_parser.py:338-349 | running `get_error` twice on a covered run with exit code 6 resets coverage to 0 the second time |
| SingleSearchParser.TouchGroupsLookup | downward/scripts/single-search-parser.py:82-83 | reading the groups adds every group key without changing any list |
| SingleSearchParser.MalformedErrorsNone | downward/scripts/single-search-parser.py:82-85 | one `malformed-log` error per mismatching group, and none iff every group has a common length |
| SingleSearchParser.GroupListsTouchGroups | downward/scripts/single-search-parser.py:82-83 | touching earlier groups does not change a later group's lists |
| SingleSearchParser.GroupsStep | downward/scripts/single-search-parser.py:82-85 | checking one more group touches its keys and adds its error |
| SingleSearchParser.CheckOneGroup | downward/scripts/single-search-parser.py:83-85 | a mismatching group records `malformed-log` and changes no property |
| SingleSearchParser.CheckGroupsInTurn | downward/scripts/single-search-parser.py:82-85 | the loop records one error per mismatching group, in group order, and does not stop |
| SingleSearchParser.UpdatePropsWithIterativeValues | downward/scripts/single-search-parser.py:81-92 | the `_all` lists and minima are stored even when a group mismatched, and the errors are appended |
| SingleSearchParser.IterativeValuesLists | downward/scripts/single-search-parser.py:103-120 | every list except `search_time` holds exactly the claimed values before the sentinel, and every group key is present |
| SingleSearchParser.GetIterativeResults | downward/scripts/single-search-parser.py:95-125 | the properties get the collected lists and minima, and one error per malformed group |
| SingleSearchParser.CumulativeNamesDistinct | downward/scripts/single-search-parser.py:65-74 | the cumulative pattern table has distinct names |
| SingleSearchParser.GetCumulativeResults | downward/scripts/single-search-parser.py:128-145 | each pattern's key holds its first match after the last sentinel or is unchanged; no other key changes |
| SingleSearchParser.CoverageFlag | downward/scripts/single-search-parser.py:162-163 | coverage is 0 or 1 |
| SingleSearchParser.Coverage | downward/scripts/single-search-parser.py:162-163 | `coverage` writes only that flag |
| SingleSearchParser.CoverageNeedsBoth | downward/scripts/single-search-parser.py:162-163 | coverage is 1 iff both `plan_length` and `cost` are present; a run with only a cost is covered by the search parser but not by this one |
| SingleSearchParser.MemoryChecked | downward/scripts/single-search-parser.py:193-202 | `check_memory` changes no key but `memory` |
| SingleSearchParser.MemoryCheckedIff | downward/scripts/single-search-parser.py:193-202 | `memory` becomes `raw_memory` iff that is known and non-negative and the run is solved; otherwise the map is unchanged; an error is recorded iff `raw_memory` is missing or negative |
| SingleSearchParser.CheckMemory | downward/scripts/single-search-parser.py:193-202 | `check_memory` leaves the map and the errors as above |
| SingleSearchParser.InitialHValues | downward/scripts/single-search-parser.py:174-190 | `initial_h_values` is always written, as the values grouped per heuristic in log order; only it and `initial_h_value` may change |
| SingleSearchParser.SingletonMembers | downward/scripts/single-search-parser.py:187-190 | the only heuristic of a one-element table is the one iterated over |
| SingleSearchParser.InitialHValueIff | downward/scripts/single-search-parser.py:187-190 | `initial_h_value` is written with the one value iff there is exactly one match in all, and is unchanged otherwise |
| SingleSearchParser.GroupInitialHValues | downward/scripts/single-search-parser.py:178-183 | the loop groups the matches per heuristic in log order |
| SingleSearchParser.GetInitialHValues | downward/scripts/single-search-parser.py:166-190 | `get_initial_h_values` leaves the properties as above |
| SingleSearchParser.FirstHeuristic | downward/scripts/single-search-parser.py:187-188 | when one heuristic reported, the first match names it |
| SingleSearchParser.ScoreOf | downward/scripts/single-search-parser.py:212-219 | each score is in [0, 1]; `None` scores 0, a value at or below the lower bound 1, at or above the upper 0 |
| SingleSearchParser.CountedKeyOf | downward/scripts/single-search-parser.py:221-223 | a score key is never an input attribute |
| SingleSearchParser.CountedScores | downward/scripts/single-search-parser.py:221-223 | the expansion, evaluation and generated scores are always written, each in [0, 1] |
| SingleSearchParser.TimeScores | downward/scripts/single-search-parser.py:225-233 | the time scores are in [0, 1] |
| SingleSearchParser.MemoryScore | downward/scripts/single-search-parser.py:235-241 | the memory score is in [0, 1] |
| SingleSearchParser.SingleScoresWritten | downward/scripts/single-search-parser.py:221-241 | the three counted scores are always written, the time scores iff `limit_search_time` exists, the memory score iff `limit_search_memory` exists, all in [0, 1] |
| SingleSearchParser.OptionalKeysAreNotCounted | downward/scripts/single-search-parser.py:221-241 | the optional scores are not among the always-written ones |
| SingleSearchParser.OptionalScoresFrame | downward/scripts/single-search-parser.py:225-241 | writing the counted scores first does not change the time and memory scores |
| SingleSearchParser.InputsAreNotCountedKeys | downward/scripts/single-search-parser.py:221-241 | no score key is an attribute a score is computed from |
| SingleSearchParser.CountedScoresKeepInputs | downward/scripts/single-search-parser.py:221-223 | the counted scores leave every score input in place |
| SingleSearchParser.TimeScoresKeepInputs | downward/scripts/single-search-parser.py:225-233 | the time scores leave every score input in place |
| SingleSearchParser.ScoreCounted | downward/scripts/single-search-parser.py:221-223 | the loop over the three attributes adds the counted scores |
| SingleSearchParser.ScoreTimes | downward/scripts/single-search-parser.py:225-233 | the time block adds the time scores |
| SingleSearchParser.ScoreMemory | downward/scripts/single-search-parser.py:235-241 | the memory block adds the memory score |
| SingleSearchParser.Scores | downward/scripts/single-search-parser.py:205-241 | `scores` adds exactly the scores above |
| SingleSearchParser.CheckMinValues | downward/scripts/single-search-parser.py:244-251 | present times are raised to at least 0.01; absent ones stay absent |
| PreprocessParser.Check | downward/scripts/preprocess_parser.py:17-23 | the first assertion fails iff `translate_error` is 1 and `preprocess_error` is not; the second fails iff the first holds, `cost` is not `None` and `search_time` is |
| PreprocessParser.CheckPassesIff | downward/scripts/preprocess_parser.py:17-23 | `check` passes iff both implications hold |
| PreprocessParser.Normalised | downward/scripts/preprocess_parser.py:41 | the section is lower-cased and its spaces become `_`, character by character |
| PreprocessParser.SectionKey | downward/scripts/preprocess_parser.py:41-42 | every timestamp key starts with `translator_time_` followed by as many characters as the section has |
| PreprocessParser.NormalisedHasNoSpaceNorCapital | downward/scripts/preprocess_parser.py:41 | a normalised section has no space and no capital letter |
| PreprocessParser.SectionKeyCollision | downward/scripts/preprocess_parser.py:41-42 | `Writing output` and `writing_output` share a key |
| PreprocessParser.DoneLimit | downward/scripts/preprocess_parser.py:36-38 | the scan stops at the first line starting with `Done!` |
| PreprocessParser.Timestamps | downward/scripts/preprocess_parser.py:36-42 | the properties after writing every timestamp line in order: no key is removed and every new key is a `translator_time_` key |
| PreprocessParser.TimestampsLastWins | downward/scripts/preprocess_parser.py:36-42 | each key holds the time of the last line for its section, and keys of sections never seen are unchanged |
| PreprocessParser.TimestampsOnlyTimeKeys | downward/scripts/preprocess_parser.py:42 | only `translator_time_` keys are written |
| PreprocessParser.ParseTranslatorTimestamps | downward/scripts/preprocess_parser.py:29-42 | the loop leaves the properties as the timestamps of the lines before `Done!` |
| PreprocessParser.ParseVarLine | downward/scripts/preprocess_parser.py:52-54 | a line gives a triple iff it splits into exactly three words whose second and third are integers; the triple is the first word and those two integers |
| PreprocessParser.ParseVarLines | downward/scripts/preprocess_parser.py:52-54 | the block parses iff every line has three words with integer size and layer, and then gives one triple per line |
| PreprocessParser.VarDescriptions | downward/scripts/preprocess_parser.py:45-54 | no variables block gives the empty list; otherwise the triples of its lines |
| PreprocessParser.WordsOfWordThenRest | downward/scripts/preprocess_parser.py:52 | `split()` of a word, a space and a rest is the word before the words of the rest |
| PreprocessParser.WordsOfWord | downward/scripts/preprocess_parser.py:52 | `split()` of one word is that word |
| PreprocessParser.IntToStringIsWord | downward/scripts/preprocess_parser.py:53 | an integer printed by `%d` is one word |
| PreprocessParser.ParseVarLineRoundTrip | downward/scripts/preprocess_parser.py:51-54 | the line `name size layer` parses back to the triple it was printed from |
| PreprocessParser.CountDerived | downward/scripts/preprocess_parser.py:63 | there are never more derived variables than variables |
| PreprocessParser.DerivedVars | downward/scripts/preprocess_parser.py:57-63 | the count is `None`, not 0, iff there are no variables |
| PreprocessParser.CountDerivedExtremes | downward/scripts/preprocess_parser.py:63 | all variables count iff every layer is at least 0, and none iff every layer is negative |
| PreprocessParser.CountDerivedAppend | downward/scripts/preprocess_parser.py:63 | the count of two lists of variables is the sum of their counts |
| PreprocessParser.Facts | downward/scripts/preprocess_parser.py:76-81 | the fact count is `None`, not 0, iff there are no variables |
| PreprocessParser.SumSizesAppend | downward/scripts/preprocess_parser.py:81 | the facts of two lists of variables add up |
| PreprocessParser.FactsAtLeastVariables | downward/scripts/preprocess_parser.py:81 | with non-empty domains there are at least as many facts as variables |
| PreprocessParser.IfAbsent | downward/scripts/preprocess_parser.py:66-91 | a wrapper writes its key only when absent and changes no other key |
| PreprocessParser.IfAbsentFirstWins | downward/scripts/preprocess_parser.py:66-91 | a second wrapper writing the same key changes nothing: the first value wins |
| PreprocessParser.OptionValue | downward/scripts/preprocess_parser.py:60-63 | the stored value is `None` iff there was no count |
| PreprocessParser.CountValue | downward/scripts/preprocess_parser.py:57-81 | no variables block stores `None`; a malformed block raises |
| PreprocessParser.CountValueOfBlock | downward/scripts/preprocess_parser.py:57-81 | a well-formed block stores the derived count or the fact sum of its triples |
| PreprocessParser.CountOf | downward/scripts/preprocess_parser.py:66-91 | the fact wrappers sum domain sizes and the derived-variable wrappers count derived variables |
| PreprocessParser.StoreIfAbsent | downward/scripts/preprocess_parser.py:66-91 | a present key is left alone, without parsing; otherwise the count that goes with the key is stored, or the parse error raised |
| PreprocessParser.MutexGroupCount | downward/scripts/preprocess_parser.py:100 | the count is that of the first `begin_groups` line followed by a line of digits, and there is none iff no such line exists |
| PreprocessParser.MutexGroupsStoredIff | downward/scripts/preprocess_parser.py:94-102 | a present key is left alone; otherwise it is written iff a count is found, with that count; no other key changes |
| PreprocessParser.MutexGroupCountExample | downward/scripts/preprocess_parser.py:97-100 | `begin_groups`, `2`, `group`, ... gives 2 |
| PreprocessParser.StoreMutexGroups | downward/scripts/preprocess_parser.py:94-102 | `translator_mutex_groups` leaves the properties as above |
| PreprocessParser.GroupSizes | downward/scripts/preprocess_parser.py:112 | there are never more group sizes than lines |
| PreprocessParser.TotalGroupSizeZero | downward/scripts/preprocess_parser.py:112-113 | the total is 0 iff every number after a `group` line is 0, so also when there are none |
| PreprocessParser.TotalAppend | downward/scripts/preprocess_parser.py:113 | the total of two lists of sizes is the sum of their totals |
| PreprocessParser.StoreTotalMutexGroupsSize | downward/scripts/preprocess_parser.py:105-113 | the total size is written only when absent |
| Steps.FuncName | lab/steps.py:55-58 | a step that has run names `nonetype`; otherwise the function's non-empty `__name__`, else its lower-cased class name, so the name is empty only for an empty class name |
| Steps.StepText | lab/steps.py:60-65 | `str(step)` is the function name and the arguments in parentheses, `name()` when there are none |
| Steps.CallStep | lab/steps.py:39-53 | a step that has run reports a second run; when the function returns a value, the function is cleared and the outcome carries that value, a failure iff it is truthy; a `ValueError` or `TypeError` gives "could not run" with the step's text, any other exception propagates, and both keep the function |
| Steps.StepTextIsOneList | lab/steps.py:60-65 | the separator makes `str(step)` one comma-separated list of all arguments, whichever kinds are present |
| Steps.CallOnlyOnce | lab/steps.py:39-50 | a step whose function returned has no function left, and calling it again reports a second run |
| Steps.CallKeepsFuncOnException | lab/steps.py:43-53 | the function stays in place exactly when it raised or the step had already run |
| Steps.TextAfterRun | lab/steps.py:46-58 | after a run the step's text names `nonetype` |
| Steps.Step.constructor | lab/steps.py:32-37 | a new step keeps its name, function, arguments and keyword arguments |
| Steps.Step.Call | lab/steps.py:39-53 | calling a step updates its function and returns the outcome of the call-once state machine |
| Steps.StepIndex | lab/steps.py:70-74 | the index of the first step with the name, or none iff no step has it |
| Steps.GetStep | lab/steps.py:76-83 | a digit name n gives step n (1-based, 0 gives the last) or fails when out of range; another name gives the first step with that name, and fails iff there is none |
| Steps.MaxLength | lab/steps.py:87 | the longest name's length, 0 for no steps |
| Steps.NameWidth | lab/steps.py:87 | the name column is at most 50 wide, 0 for no steps, and at least every name of up to 50 characters |
| Steps.TerminalWidth | lab/steps.py:88-89 | a reported width is used when non-zero; 0 means 80 |
| Steps.StepLineAligned | lab/steps.py:92 | for steps 1 to 99 and names that fit the column, the number-and-name part is column width + 3 characters |
| Steps.Entry | lab/steps.py:94-97 | a step takes one line iff its line and text are shorter than the terminal, and otherwise the four entries `''`, line, text, `''` |
| Steps.StepLines | lab/steps.py:91-92 | the number-and-name part of step i is numbered i + 1 |
| Steps.LayoutLength | lab/steps.py:91-97 | each step takes between one and four lines |
| Steps.LayoutStep | lab/steps.py:91-97 | the listing of one more step appends that step's entry |
| Steps.StepsTextHeader | lab/steps.py:90-98 | the text always starts with the two header lines |
| Steps.StepEntry | lab/steps.py:93-97 | one loop iteration computes that step's entry |
| Steps.StepsLines | lab/steps.py:90-97 | the loop produces the header followed by the layout of every step |
| Steps.GetStepsText | lab/steps.py:85-98 | the text is the header and the layout of all steps joined by newlines, with the name column and terminal width above |

## Left out

- Regular-expression matching is not modelled. Each pattern is a function from a line to an optional value, so casts (`int`, `float`) and the exact pattern texts are outside the model. The mutex-group patterns are modelled on lines.
- `math.log` is a parameter `ln`, assumed only to be increasing. `round(score * 100, 2)` is not modelled: the search parser's score is `100 * score` exactly. `math.fsum` is an exact sum over `real`. Floating-point rounding is not modelled anywhere.
- `print`, `logging.info`, `logging.error` and `traceback.print_exc` only write output and are left out.
- The `lab.parser.Parser` engine is not part of this model: registration of patterns and functions, per-file dispatch, and the parser classes and `main` drivers. `add_unexplained_error` appends to `Properties.unexplainedErrors`.
- `downward/scripts/exitcode_parser.py` wraps an outcome module that is not part of this model; the example experiment scripts are configuration only and are not modelled.
- `parse_error` and `unsupported` of the search parser are one substring test each, and are not modelled.
- `os.path.exists` in the preprocess parser's constructor is I/O and is left out.
- `tools.get_terminal_size` is I/O; `Steps.GetStepsText` takes the reported width as a parameter.
- Steps.GetStepsText: builds the number-and-name column before its loop instead of inside it; the text is the same.
- `lab/tools.py` is not part of this model. A `logging.critical` message is taken to end the run, so `Step.Call` and `GetStep` return it rather than continue.
- PreprocessParser.ParseTranslatorTimestamps: a matched time that `float()` cannot parse would raise; the model's timestamp matcher returns only parsed times.
- `str.isdigit` is modelled for ASCII digits only; other Unicode digits are not.
- `Step` takes its keyword arguments as a sequence in the order `dict.items()` yields them; Python 2's hash order of a dict is not modelled.
- The function a step calls is abstract: it returns a value, raises `ValueError`/`TypeError`, or raises something else.
- SearchParser.Scores: its precondition demands scored values that are `None` or numbers, a truthy `limit_search_memory` that is a number, and, when `memory` is present, a memory bound `(limit_search_memory or 2048) * 1024` that is positive and not 2000 KB; the source raises there (math domain error, ZeroDivisionError or TypeError).
- SingleSearchParser.Scores: its precondition demands scored values that are `None` or numbers; a `limit_search_memory` that is a number whenever the key exists (`None * 1024` raises); when a time is scored, a `limit_search_time` that is a positive number other than 1.0 (`log(1.0) - log(1.0)` is 0, a ZeroDivisionError); and when `memory` is scored, a memory bound that is positive and not 2000 KB; the source raises on all of these.
- SearchParser.GetError: its precondition (`ClassifyDefined`) demands three things. An existing `error` must be `None` or a string (`ErrorIsText`); the source raises only on a truthy non-string error, whose `startswith` fails, and accepts a falsy one. `search_returncode` must be an int where the cascade formats it with `%d` (`IntCode`); Python 2 would also format a float or a bool there, and the model does not cover those. At exit 137 both limits must be non-zero numbers and the logged values numbers, where the source raises otherwise.
- SingleSearchParser.GetInitialHValues: `infinity` becomes 2^63 - 1, the `sys.maxint` of a 64-bit Python 2; a 32-bit build's 2^31 - 1 is not modelled.

Three behaviours of the code that a reader might not expect:

- At exactly 5% of a resource left, exit 137 gives `unexplained-sigkill`, because both comparisons are strict (`SearchParser.SigkillBoundary`).
- `get_error` is not idempotent (`SearchParser.ClassifiedNotIdempotent`).
- The single-search parser's coverage needs both `plan_length` and `cost`, while the search parser's needs one of them (`SingleSearchParser.CoverageNeedsBoth`).
