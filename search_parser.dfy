/**
 * The steps of the Fast Downward search-log parser (`search_parser.py`) that
 * read and write a run's properties: the iterative and cumulative scans, the
 * coverage and unsolvability flags, the memory check, the scores, the time
 * floors, the last values logged by the driver, and the error classifier.
 *
 * Each regular expression is abstracted as a per-line search (see
 * `Collector.Pattern`); the tables fix only the attribute names and their
 * order.
 */
module SearchParser {
  import opened Wrappers
  import opened Text
  import opened RunProps
  import opened Collector
  import opened Scoring

  // ---------------------------------------------------------------------------
  // Exit codes of the planner

  const ExitPlanFound := 0
  const ExitCriticalError := 1
  const ExitInputError := 2
  const ExitUnsupported := 3
  const ExitUnsolvable := 4
  const ExitUnsolvedIncomplete := 5
  const ExitOutOfMemory := 6
  const ExitTimeout := 7
  const ExitTimeoutAndMemory := 8
  const ExitSigxcpu := 128 + 24
  const ExitSigsegv := 128 + 11
  /** Killed by SIGKILL (128 + 9). */
  const ExitSigkill := 137

  // ---------------------------------------------------------------------------
  // Pattern tables (attribute names in table order)

  const PortfolioNames := ["cost", "plan_length"]

  const IterativeNames := PortfolioNames +
    ["dead_ends", "evaluations", "expansions", "generated", "initial_h_value", "search_time"]

  const CumulativeNames := ["dead_ends", "evaluations", "expansions", "generated", "reopened",
    "expansions_until_last_jump", "search_time", "total_time", "memory", "initial_h_value"]

  /** The groups whose lists must have one common length. */
  const CostGroup := ["cost", "plan_length"]
  const SearchGroup := ["expansions", "generated", "search_time"]

  // ---------------------------------------------------------------------------
  // Iterative results

  /** The lists `get_iterative_results` stores when its checks pass: the values
      collected above the sentinel, with the surplus search time dropped and
      every attribute of both groups given a list. */
  function IterativeValues(lines: seq<string>, patterns: seq<Pattern>): (r: map<string, seq<Number>>)
    ensures forall g :: g in CostGroup || g in SearchGroup ==> g in r
  {
    TouchAll(TouchAll(Trimmed(GroupBy(Claims(ScannedLines(lines, true), patterns))), CostGroup), SearchGroup)
  }

  /** Outside `search_time`, each attribute's stored list is exactly the
      values claimed for it above the sentinel, in line order; every attribute
      of the two groups has a list. */
  lemma IterativeValuesLists(lines: seq<string>, patterns: seq<Pattern>, k: string)
    requires k != "search_time"
    ensures Lookup(IterativeValues(lines, patterns), k) ==
      ValuesFor(Claims(ScannedLines(lines, true), patterns), k)
    ensures forall g :: g in CostGroup || g in SearchGroup ==> g in IterativeValues(lines, patterns)
  {
    GroupByIsFilter(Claims(ScannedLines(lines, true), patterns));
  }

  /** Two consecutive `assert`s that groups of lists have one common length. */
  method CheckGroups(values: map<string, seq<Number>>, first: seq<string>, second: seq<string>)
      returns (ok: bool, touched: map<string, seq<Number>>)
    ensures var all := TouchAll(TouchAll(values, first), second);
      ok <==> SameLength(GroupLists(all, first)) && SameLength(GroupLists(all, second))
    ensures ok ==> touched == TouchAll(TouchAll(values, first), second)
  {
    var same;
    same, touched := CheckGroup(values, first);
    ghost var all := TouchAll(touched, second);
    GroupListsTouchAll(values, first, first);
    GroupListsTouchAll(touched, second, first);
    GroupListsTouchAll(touched, second, second);
    if !same {
      return false, touched;
    }
    same, touched := CheckGroup(touched, second);
    return same, touched;
  }

  /** `get_iterative_results`. `ok` is false where an `assert` of the source
      fails; the properties are then left as they were. */
  method GetIterativeResults(lines: seq<string>, patterns: seq<Pattern>, props: Properties)
      returns (ok: bool)
    requires Names(patterns) == IterativeNames
    modifies props
    ensures var values := IterativeValues(lines, patterns);
      ok <==> SameLength(GroupLists(values, CostGroup)) && SameLength(GroupLists(values, SearchGroup))
    ensures ok ==> IterativeStored(old(props.entries), props.entries, IterativeValues(lines, patterns))
    ensures !ok ==> props.entries == old(props.entries)
    ensures props.unexplainedErrors == old(props.unexplainedErrors)
  {
    var values := CollectIterative(lines, patterns, true);
    values := PopSurplusSearchTime(values);
    ok, values := CheckGroups(values, CostGroup, SearchGroup);
    if ok {
      StoreIterative(values, props);
    }
  }

  /** The lists `get_iterative_portfolio_results` stores: all values of the
      log (no sentinel), with `cost` and `plan_length` given a list. */
  function PortfolioValues(lines: seq<string>, patterns: seq<Pattern>): map<string, seq<Number>> {
    TouchAll(GroupBy(Claims(ScannedLines(lines, false), patterns)), CostGroup)
  }

  /** `get_iterative_portfolio_results`; `ok` is false where its `assert` fails. */
  method GetIterativePortfolioResults(lines: seq<string>, patterns: seq<Pattern>, props: Properties)
      returns (ok: bool)
    requires Names(patterns) == PortfolioNames
    modifies props
    ensures ok <==> SameLength(GroupLists(PortfolioValues(lines, patterns), CostGroup))
    ensures ok ==> IterativeStored(old(props.entries), props.entries, PortfolioValues(lines, patterns))
    ensures !ok ==> props.entries == old(props.entries)
    ensures props.unexplainedErrors == old(props.unexplainedErrors)
  {
    var values := CollectIterative(lines, patterns, false);
    var same;
    ghost var collected := values;
    same, values := CheckGroup(values, CostGroup);
    GroupListsTouchAll(collected, CostGroup, CostGroup);
    if !same {
      return false;
    }
    StoreIterative(values, props);
    return true;
  }

  /** The cumulative pattern table names every attribute once. */
  lemma CumulativeNamesDistinct(patterns: seq<Pattern>)
    requires Names(patterns) == CumulativeNames
    ensures DistinctNames(patterns)
  {
    forall i, j | 0 <= i < j < |patterns| ensures patterns[i].name != patterns[j].name {
      assert patterns[i].name == CumulativeNames[i] && patterns[j].name == CumulativeNames[j];
    }
  }

  /** `get_cumulative_results`: each attribute that matches below the last
      sentinel holds its match nearest the sentinel, overwriting any earlier
      value; every other key is as before. */
  method GetCumulativeResults(lines: seq<string>, patterns: seq<Pattern>, props: Properties)
    requires Names(patterns) == CumulativeNames
    modifies props
    ensures props.entries == CumulativeValues(old(props.entries), lines, patterns)
    ensures forall i :: 0 <= i < |patterns| ==>
      HitStored(old(props.entries), props.entries, patterns[i].name,
                FirstHit(AfterLastSentinel(lines), patterns[i].search))
    ensures forall k :: k !in CumulativeNames ==> SameAt(old(props.entries), props.entries, k)
    ensures props.unexplainedErrors == old(props.unexplainedErrors)
  {
    CumulativePass(lines, patterns, props);
    CumulativeNamesDistinct(patterns);
    forall i | 0 <= i < |patterns|
      ensures HitStored(old(props.entries), props.entries, patterns[i].name,
                        FirstHit(AfterLastSentinel(lines), patterns[i].search))
    {
      CumulativeValueOf(old(props.entries), lines, patterns, i);
    }
    forall k | k !in CumulativeNames ensures SameAt(old(props.entries), props.entries, k) {
      assert forall i :: 0 <= i < |patterns| ==> patterns[i].name == Names(patterns)[i];
      CumulativeValuesElsewhere(old(props.entries), lines, patterns, k);
    }
  }

  // ---------------------------------------------------------------------------
  // Coverage, unsolvability and memory

  /** `int((plan_length in props or cost in props) and not props.get('validate_error'))`. */
  function CoverageFlag(m: Props): (c: int)
    ensures c == 0 || c == 1
    ensures c == 1 <==> ("plan_length" in m || "cost" in m) && !Truthy(Get(m, "validate_error"))
  {
    if ("plan_length" in m || "cost" in m) && !Truthy(Get(m, "validate_error")) then 1 else 0
  }

  method Coverage(props: Properties)
    modifies props
    ensures props.entries == old(props.entries)["coverage" := Num(Int(CoverageFlag(old(props.entries))))]
    ensures props.unexplainedErrors == old(props.unexplainedErrors)
  {
    var found := "plan_length" in props.entries || "cost" in props.entries;
    var covered := found && !Truthy(Get(props.entries, "validate_error"));
    props.entries := props.entries["coverage" := Num(Int(if covered then 1 else 0))];
  }

  const UnsolvableMarker := "unsolvable"
  const ExploredMarker := "Completely explored state space -- no solution!"

  /** `int(not props['coverage'] and logged_unsolvable)`. */
  function UnsolvableFlag(m: Props, content: string): (u: int)
    requires "coverage" in m
    ensures u == 0 || u == 1
    ensures u == 1 <==>
      !Truthy(m["coverage"]) && (Contains(content, UnsolvableMarker) || Contains(content, ExploredMarker))
  {
    var logged := Contains(content, UnsolvableMarker) || Contains(content, ExploredMarker);
    if !Truthy(m["coverage"]) && logged then 1 else 0
  }

  method Unsolvable(content: string, props: Properties)
    requires "coverage" in props.entries
    modifies props
    ensures props.entries ==
      old(props.entries)["unsolvable" := Num(Int(UnsolvableFlag(old(props.entries), content)))]
    ensures props.unexplainedErrors == old(props.unexplainedErrors)
  {
    var logged := Contains(content, UnsolvableMarker) || Contains(content, ExploredMarker);
    var flag := if !Truthy(props.entries["coverage"]) && logged then 1 else 0;
    props.entries := props.entries["unsolvable" := Num(Int(flag))];
  }

  /** The coverage and unsolvability flags that `unsolvable` and `coverage`
      write make `successful` hold exactly for covered runs and runs the log
      declares unsolvable. */
  lemma SuccessfulAfterFlags(m: Props, content: string)
    ensures var c := m["coverage" := Num(Int(CoverageFlag(m)))];
      var u := c["unsolvable" := Num(Int(UnsolvableFlag(c, content)))];
      Truthy(Successful(u)) <==>
        CoverageFlag(m) == 1 || Contains(content, UnsolvableMarker) || Contains(content, ExploredMarker)
  {
  }

  /** `check_memory`: memory is None unless the run was successful. */
  function MemoryChecked(m: Props): (r: Props)
    requires "coverage" in m && (!Truthy(m["coverage"]) ==> "unsolvable" in m)
    ensures forall k :: k != "memory" ==> SameAt(m, r, k)
    ensures Truthy(Successful(m)) ==> r == m
    ensures !Truthy(Successful(m)) ==> "memory" in r && r["memory"] == Null
  {
    if !Truthy(Successful(m)) then m["memory" := Null] else m
  }

  /** The memory is dropped exactly when neither coverage nor unsolvable holds. */
  lemma MemoryDroppedIff(m: Props)
    requires "coverage" in m && (!Truthy(m["coverage"]) ==> "unsolvable" in m)
    ensures MemoryChecked(m) != m <==>
      !Truthy(m["coverage"]) && !Truthy(m["unsolvable"]) && !("memory" in m && m["memory"] == Null)
  {
    if !Truthy(Successful(m)) && "memory" in m && m["memory"] == Null {
      assert m["memory" := Null] == m;
    }
  }

  method CheckMemory(props: Properties)
    requires "coverage" in props.entries
    requires !Truthy(props.entries["coverage"]) ==> "unsolvable" in props.entries
    modifies props
    ensures props.entries == MemoryChecked(old(props.entries))
    ensures props.unexplainedErrors == old(props.unexplainedErrors)
  {
    if !Truthy(Successful(props.entries)) {
      props.entries := props.entries["memory" := Null];
    }
  }

  // ---------------------------------------------------------------------------
  // Initial heuristic value

  /** `get_initial_h_value`: unless already known, the value of the first
      line reporting the best heuristic value of the initial state. */
  function InitialHValue(m: Props, lines: seq<string>, bestH: string -> Option<nat>): (r: Props)
    ensures "initial_h_value" in m ==> r == m
    ensures forall k :: k != "initial_h_value" ==> SameAt(m, r, k)
    ensures "initial_h_value" !in m ==>
      ("initial_h_value" in r <==> exists i :: 0 <= i < |lines| && bestH(lines[i]).Some?)
    ensures "initial_h_value" !in m && FirstHit(lines, bestH).Some? ==>
      r["initial_h_value"] == Num(Int(FirstHit(lines, bestH).value))
  {
    if "initial_h_value" in m then m
    else match FirstHit(lines, bestH)
      case None => m
      case Some(h) => m["initial_h_value" := Num(Int(h))]
  }

  method GetInitialHValue(lines: seq<string>, bestH: string -> Option<nat>, props: Properties)
    modifies props
    ensures props.entries == InitialHValue(old(props.entries), lines, bestH)
    ensures props.unexplainedErrors == old(props.unexplainedErrors)
  {
    if "initial_h_value" in props.entries {
      return;
    }
    var i := 0;
    while i < |lines|
      invariant 0 <= i <= |lines|
      invariant FirstHit(lines, bestH) == FirstHit(lines[i..], bestH)
    {
      var found := bestH(lines[i]);
      if found.Some? {
        props.entries := props.entries["initial_h_value" := Num(Int(found.value))];
        return;
      }
      assert lines[i..][1..] == lines[i + 1..];
      i := i + 1;
    }
  }

  // ---------------------------------------------------------------------------
  // Scores

  /** `(props.get('limit_search_memory') or 2048) * 1024`. */
  function MaxMemoryKB(m: Props): real
    requires var l := Get(m, "limit_search_memory"); Truthy(l) ==> l.Num?
  {
    var l := Get(m, "limit_search_memory");
    (if Truthy(l) then l.n.Real() else 2048.0) * 1024.0
  }

  /** A limit of 0, like a missing one, falls back to 2048 MB. */
  lemma MaxMemoryFallback(m: Props)
    requires Get(m, "limit_search_memory") == Null || EqualsInt(Get(m, "limit_search_memory"), 0)
    ensures MaxMemoryKB(m) == 2048.0 * 1024.0
  {
  }

  /** What `scores` needs to compute: the scored values are None or numbers,
      the memory limit is a number when truthy (it is multiplied), and when a
      memory value is scored the memory bound is positive and other than the
      lower bound (its logarithm is taken and divided by). */
  ghost predicate ScoresDefined(m: Props, ln: real -> real) {
    Increasing(ln)
    && Scorable(Get(m, "expansions")) && Scorable(Get(m, "evaluations"))
    && Scorable(Get(m, "memory"))
    && Scorable(Get(m, "total_time")) && Scorable(Get(m, "search_time"))
    && (var l := Get(m, "limit_search_memory"); Truthy(l) ==> l.Num?)
    && (Get(m, "memory") != Null ==> MaxMemoryKB(m) > 0.0 && MaxMemoryKB(m) != 2000.0)
  }

  /** One score of `scores`, in percent with minimum score 0: between 0 and
      100 whatever the order of the bounds. */
  function ScoreEntry(v: Value, lo: real, hi: real, ln: real -> real): (r: Value)
    requires Scorable(v) && Increasing(ln)
    requires v != Null ==> 0.0 < lo && 0.0 < hi && lo != hi
    ensures InPercent(r)
    ensures v == Null ==> r == Num(Int(0))
  {
    if v == Null then Num(Int(0))
    else
      BoundsDiffer(lo, hi, ln);
      var score := PercentScore(v, lo, hi, 0.0, ln);
      assert 0.0 <= score.Real() <= 100.0 by {
        if lo <= hi {
          PercentScoreInRange(v, lo, hi, ln);
        } else {
          RatioAtLeastUpper(v.n.Real(), lo, hi, ln);
        }
      }
      Num(score)
  }

  predicate InPercent(v: Value) {
    v.Num? && 0.0 <= v.n.Real() <= 100.0
  }

  /** The five scores `scores` writes. */
  function SearchScores(m: Props, ln: real -> real): (s: map<string, Value>)
    requires ScoresDefined(m, ln)
    ensures s.Keys == {"score_expansions", "score_evaluations", "score_memory",
                       "score_total_time", "score_search_time"}
    ensures forall k :: k in s ==> InPercent(s[k])
  {
    map["score_expansions" := ScoreEntry(Get(m, "expansions"), 100.0, 1000000.0, ln),
        "score_evaluations" := ScoreEntry(Get(m, "evaluations"), 100.0, 1000000.0, ln),
        "score_memory" := ScoreEntry(Get(m, "memory"), 2000.0, MaxMemoryKB(m), ln),
        "score_total_time" := ScoreEntry(Get(m, "total_time"), 1.0, 1800.0, ln),
        "score_search_time" := ScoreEntry(Get(m, "search_time"), 1.0, 1800.0, ln)]
  }

  /** `scores`: writes the five scores at once; nothing else changes. */
  method Scores(props: Properties, ln: real -> real)
    requires ScoresDefined(props.entries, ln)
    modifies props
    ensures props.entries == old(props.entries) + SearchScores(old(props.entries), ln)
    ensures props.unexplainedErrors == old(props.unexplainedErrors)
  {
    props.entries := props.entries + SearchScores(props.entries, ln);
  }

  /** `check_min_values`: present times are raised to at least 0.1 s. */
  method CheckMinValues(props: Properties)
    modifies props
    ensures props.entries == RaisedTimes(old(props.entries), TimeAttributes, 0.1)
    ensures props.unexplainedErrors == old(props.unexplainedErrors)
  {
    RaiseTimesToFloor(props, 0.1);
  }

  // ---------------------------------------------------------------------------
  // Last values logged by the driver

  const LastLoggedNames := ["last_logged_time", "last_logged_wall_clock_time", "last_logged_memory"]

  /** `found` holds `hit`'s value under `name`, or nothing when there is no hit. */
  predicate FoundAs(found: map<string, Number>, name: string, hit: Option<Number>) {
    (name in found <==> hit.Some?) && (name in found ==> found[name] == hit.value)
  }

  /** `found` maps each pattern's attribute to the value of its last matching
      line, and holds nothing else. */
  ghost predicate HoldsLastHits(found: map<string, Number>, lines: seq<string>, patterns: seq<Pattern>) {
    (forall q :: 0 <= q < |patterns| ==> FoundAs(found, patterns[q].name, LastHit(lines, patterns[q].search)))
    && forall k :: k in found ==> k in Names(patterns)
  }

  /** The properties after `parse_last_loggings`: each attribute holds the
      value of its last matching line in the log when there is one; every
      other key, and an attribute without a match, is as before. */
  ghost predicate LastLoggedStored(m: Props, r: Props, lines: seq<string>, patterns: seq<Pattern>) {
    (forall q :: 0 <= q < |patterns| ==>
      HitStored(m, r, patterns[q].name, LastHit(lines, patterns[q].search)))
    && forall k :: k !in Names(patterns) ==> SameAt(m, r, k)
  }

  lemma LastLoggedNamesDistinct(patterns: seq<Pattern>)
    requires Names(patterns) == LastLoggedNames
    ensures DistinctNames(patterns)
  {
    assert patterns[0].name == LastLoggedNames[0];
    assert patterns[1].name == LastLoggedNames[1];
    assert patterns[2].name == LastLoggedNames[2];
  }

  /** Offers one more line, above the lines already scanned, to each pattern:
      an attribute that has no value yet takes the line's value. */
  method OfferLoggedLine(line: string, patterns: seq<Pattern>, found: map<string, Number>,
                         ghost below: seq<string>)
      returns (r: map<string, Number>)
    requires DistinctNames(patterns)
    requires HoldsLastHits(found, below, patterns)
    ensures HoldsLastHits(r, [line] + below, patterns)
  {
    r := found;
    for j := 0 to |patterns|
      invariant forall q :: 0 <= q < j ==>
        FoundAs(r, patterns[q].name, LastHit([line] + below, patterns[q].search))
      invariant forall q :: j <= q < |patterns| ==>
        FoundAs(r, patterns[q].name, LastHit(below, patterns[q].search))
      invariant forall k :: k in r ==> k in Names(patterns)
    {
      var name := patterns[j].name;
      var hit := patterns[j].search(line);
      LastHitPrepend(line, below, patterns[j].search);
      if hit.Some? && name !in r {
        r := r[name := hit.value];
      }
    }
  }

  /** Once all three attributes have a value from the lines below `i`, the
      lines above cannot change any of them. */
  lemma CompleteHitsSuffix(found: map<string, Number>, lines: seq<string>, i: nat, patterns: seq<Pattern>)
    requires |patterns| == 3 && DistinctNames(patterns) && i <= |lines|
    requires HoldsLastHits(found, lines[i..], patterns) && |found| == 3
    ensures HoldsLastHits(found, lines, patterns)
  {
    var names := {patterns[0].name, patterns[1].name, patterns[2].name};
    assert found.Keys <= names by {
      forall k | k in found ensures k in names {
        assert k in Names(patterns);
      }
    }
    forall q | 0 <= q < 3 ensures patterns[q].name in found {
      if patterns[q].name !in found {
        SubsetCard(found.Keys, names - {patterns[q].name});
      }
    }
    forall q | 0 <= q < 3
      ensures FoundAs(found, patterns[q].name, LastHit(lines, patterns[q].search))
    {
      LastHitSuffix(lines, i, patterns[q].search);
    }
  }

  /** `props.update(new_props)` with the values found. */
  lemma UpdateWithFound(m: Props, found: map<string, Number>, lines: seq<string>, patterns: seq<Pattern>)
    requires HoldsLastHits(found, lines, patterns)
    ensures LastLoggedStored(m, m + map k | k in found :: Num(found[k]), lines, patterns)
  {
  }

  /** `parse_last_loggings`: scans the driver log bottom-up, keeping the first
      value seen per attribute, until all three are found. */
  method ParseLastLoggings(lines: seq<string>, patterns: seq<Pattern>, props: Properties)
    requires Names(patterns) == LastLoggedNames
    modifies props
    ensures LastLoggedStored(old(props.entries), props.entries, lines, patterns)
    ensures props.unexplainedErrors == old(props.unexplainedErrors)
  {
    LastLoggedNamesDistinct(patterns);
    var found: map<string, Number> := map[];
    var i := |lines|;
    while i > 0
      invariant 0 <= i <= |lines|
      invariant HoldsLastHits(found, lines[i..], patterns)
      invariant props.entries == old(props.entries)
      invariant props.unexplainedErrors == old(props.unexplainedErrors)
    {
      i := i - 1;
      assert lines[i..] == [lines[i]] + lines[i + 1..];
      found := OfferLoggedLine(lines[i], patterns, found, lines[i + 1..]);
      if |found| == 3 {
        CompleteHitsSuffix(found, lines, i, patterns);
        break;
      }
    }
    assert HoldsLastHits(found, lines, patterns) by {
      if i == 0 {
        assert lines[i..] == lines;
      }
    }
    UpdateWithFound(props.entries, found, lines, patterns);
    props.entries := props.entries + map k | k in found :: Num(found[k]);
  }

  // ---------------------------------------------------------------------------
  // Error classification

  /** The fixed errors of the exit codes, as `get_error` iterates over them. */
  const ExitCodeErrors: seq<(int, string)> := [
    (ExitInputError, "unexplained-input-error"),
    (ExitUnsupported, "unexplained-unsupported-feature-requested"),
    (ExitUnsolvable, "unsolvable"),
    (ExitUnsolvedIncomplete, "incomplete-search-found-no-plan"),
    (ExitOutOfMemory, "out-of-memory"),
    (ExitTimeout, "timeout"),
    (ExitTimeoutAndMemory, "timeout-and-out-of-memory"),
    (ExitSigxcpu, "timeout")]

  /** The error of the last table entry whose code equals the exit code. */
  function TableError(exitcode: Value, table: seq<(int, string)>): (r: Option<string>)
    ensures r.None? <==> forall t :: 0 <= t < |table| ==> !EqualsInt(exitcode, table[t].0)
    ensures r.Some? ==> exists t :: 0 <= t < |table| && EqualsInt(exitcode, table[t].0) && table[t].1 == r.value
    decreases |table|
  {
    if table == [] then None
    else if EqualsInt(exitcode, table[|table| - 1].0) then Some(table[|table| - 1].1)
    else TableError(exitcode, table[..|table| - 1])
  }

  /** The exit-code table as `get_error`'s table lists it: codes 2 to
      8 and 152 have their fixed error; 0, 1, 137 (SIGKILL), 139 (SIGSEGV) and
      every other code have none. */
  lemma ExitCodeErrorsTable(c: int)
    ensures TableError(Num(Int(c)), ExitCodeErrors) ==
      if c == 2 then Some("unexplained-input-error")
      else if c == 3 then Some("unexplained-unsupported-feature-requested")
      else if c == 4 then Some("unsolvable")
      else if c == 5 then Some("incomplete-search-found-no-plan")
      else if c == 6 then Some("out-of-memory")
      else if c == 7 || c == 152 then Some("timeout")
      else if c == 8 then Some("timeout-and-out-of-memory")
      else None
  {
    var e := Num(Int(c));
    var t := ExitCodeErrors;
    forall k | 0 <= k < |t| ensures EqualsInt(e, t[k].0) <==> c == t[k].0 {
    }
    var r := TableError(e, t);
    if r.Some? {
      var k :| 0 <= k < |t| && EqualsInt(e, t[k].0) && t[k].1 == r.value;
      assert k in {0, 1, 2, 3, 4, 5, 6, 7};
    } else {
      assert !EqualsInt(e, t[0].0) && !EqualsInt(e, t[1].0) && !EqualsInt(e, t[2].0)
        && !EqualsInt(e, t[3].0) && !EqualsInt(e, t[4].0) && !EqualsInt(e, t[5].0)
        && !EqualsInt(e, t[6].0) && !EqualsInt(e, t[7].0);
    }
  }

  /** `props['error'] = error`, when there is one. */
  function WithError(m: Props, error: Option<string>): (r: Props)
    ensures forall k :: k != "error" ==> SameAt(m, r, k)
  {
    match error
    case None => m
    case Some(e) => m["error" := Str(e)]
  }

  /** `error` is None or a string: what `startswith` can be called on. */
  predicate ErrorIsText(m: Props) {
    Get(m, "error") == Null || Get(m, "error").Str?
  }

  /** The first part of `get_error`: `search_error` deleted, coverage 0 when
      an error is already known, then the exit-code table applied. */
  function Tabled(m: Props): (r: Props)
    ensures ErrorIsText(m) ==> ErrorIsText(r)
    ensures "search_error" !in r
  {
    WithError(Cleared(m), TableError(Get(m, "search_returncode"), ExitCodeErrors))
  }

  /** `search_error` deleted and coverage 0 when an error is already known. */
  function Cleared(m: Props): (r: Props)
    ensures "search_error" !in r
    ensures Get(r, "error") == Get(m, "error")
  {
    var cleared := m - {"search_error"};
    if Get(cleared, "error") != Null then cleared["coverage" := Num(Int(0))] else cleared
  }

  /** The cascade runs when coverage is 0 and no error is known. */
  predicate NeedsFallback(m: Props) {
    EqualsInt(Get(m, "coverage"), 0) && Get(m, "error") == Null
  }

  /** The exit code is an integer, as `'%d' % exitcode` needs. */
  predicate IntCode(exitcode: Value) {
    exitcode.Num? && exitcode.n.Int?
  }

  /** A limit that can be divided by, and a last logged value that is absent
      (counted as 0) or a number. */
  predicate LimitUsable(m: Props, limit: string, logged: string) {
    limit in m && m[limit].Num? && m[limit].n.Real() != 0.0
    && (logged in m ==> m[logged].Num?)
  }

  /** What the cascade reaches without raising: the exit code where it is
      formatted with `%d`, the limits where the SIGKILL rule divides by them. */
  predicate FallbackDefined(m: Props, content: string, exitcode: Value) {
    NeedsFallback(m) ==>
      if EqualsInt(Get(m, "unsolvable"), 1) then IntCode(exitcode)
      else if EqualsInt(Get(m, "validate_error"), 1) then true
      else if Contains(content, "bad_alloc") then IntCode(exitcode)
      else if EqualsInt(exitcode, ExitSigkill) then
        LimitUsable(m, "limit_search_time", "last_logged_time")
        && LimitUsable(m, "limit_search_memory", "last_logged_memory")
      else true
  }

  /** What `get_error` needs of a run's properties. */
  predicate ClassifyDefined(m: Props, content: string) {
    ErrorIsText(m) && FallbackDefined(Tabled(m), content, Get(m, "search_returncode"))
  }

  /** The fraction of a limit not yet used at the last logged value. */
  function RemainingFraction(m: Props, limit: string, logged: string): (r: real)
    requires LimitUsable(m, limit, logged)
    ensures logged !in m ==> r == 1.0
    ensures logged in m ==> r * m[limit].n.Real() == m[limit].n.Real() - m[logged].n.Real()
  {
    var used := if logged in m then m[logged].n.Real() else 0.0;
    (m[limit].n.Real() - used) / m[limit].n.Real()
  }

  /** The SIGKILL rule: less than 5% of one resource left and more than 5% of
      the other points at the first; anything else is unexplained. */
  function SigkillError(timeLeft: real, memoryLeft: real): (e: string)
    ensures e == "unexplained-probably-timeout" <==> timeLeft < 0.05 && memoryLeft > 0.05
    ensures e == "unexplained-probably-out-of-memory" <==> memoryLeft < 0.05 && timeLeft > 0.05
    ensures StartsWith(e, "unexplained")
  {
    if timeLeft < 0.05 && memoryLeft > 0.05 then "unexplained-probably-timeout"
    else if memoryLeft < 0.05 && timeLeft > 0.05 then "unexplained-probably-out-of-memory"
    else "unexplained-sigkill"
  }

  /** Exactly 5% left of either resource is not "less than 5%": the run is an
      unexplained SIGKILL. */
  lemma SigkillBoundary(x: real)
    ensures SigkillError(0.05, x) == "unexplained-sigkill"
    ensures SigkillError(x, 0.05) == "unexplained-sigkill"
  {
  }

  /** The fallback cascade of `get_error`, first match wins. */
  function FallbackError(m: Props, content: string, exitcode: Value): (e: string)
    requires NeedsFallback(m) && FallbackDefined(m, content, exitcode)
    ensures EqualsInt(Get(m, "unsolvable"), 1) ==>
      e == "probably-unsolvable-exitcode-" + IntToString(exitcode.n.i)
    ensures !EqualsInt(Get(m, "unsolvable"), 1) && EqualsInt(Get(m, "validate_error"), 1) ==>
      e == "unexplained-invalid-solution"
    ensures (!EqualsInt(Get(m, "unsolvable"), 1) && !EqualsInt(Get(m, "validate_error"), 1)
             && Contains(content, "bad_alloc")) ==>
      e == "probably-out-of-memory-exitcode-" + IntToString(exitcode.n.i)
    ensures (!EqualsInt(Get(m, "unsolvable"), 1) && !EqualsInt(Get(m, "validate_error"), 1)
             && !Contains(content, "bad_alloc") && EqualsInt(exitcode, ExitSigkill)) ==>
      e == SigkillError(RemainingFraction(m, "limit_search_time", "last_logged_time"),
                        RemainingFraction(m, "limit_search_memory", "last_logged_memory"))
    ensures (!EqualsInt(Get(m, "unsolvable"), 1) && !EqualsInt(Get(m, "validate_error"), 1)
             && !Contains(content, "bad_alloc") && !EqualsInt(exitcode, ExitSigkill)) ==>
      e == "unexplained"
  {
    if EqualsInt(Get(m, "unsolvable"), 1) then
      "probably-unsolvable-exitcode-" + IntToString(exitcode.n.i)
    else if EqualsInt(Get(m, "validate_error"), 1) then "unexplained-invalid-solution"
    else if Contains(content, "bad_alloc") then
      "probably-out-of-memory-exitcode-" + IntToString(exitcode.n.i)
    else if EqualsInt(exitcode, ExitSigkill) then
      SigkillError(RemainingFraction(m, "limit_search_time", "last_logged_time"),
                   RemainingFraction(m, "limit_search_memory", "last_logged_memory"))
    else "unexplained"
  }

  /** A fallback error is flagged unexplained exactly when it is not one of
      the two "probably" guesses from the unsolvable flag or `bad_alloc`. */
  lemma FallbackUnexplained(m: Props, content: string, exitcode: Value)
    requires NeedsFallback(m) && FallbackDefined(m, content, exitcode)
    ensures StartsWith(FallbackError(m, content, exitcode), "unexplained") <==>
      !EqualsInt(Get(m, "unsolvable"), 1)
      && (EqualsInt(Get(m, "validate_error"), 1) || !Contains(content, "bad_alloc"))
  {
    var e := FallbackError(m, content, exitcode);
    if !StartsWith(e, "unexplained") {
      assert e[0] == 'p' || e[..11] != "unexplained";
    }
    if StartsWith(e, "unexplained") {
      assert e[0] == 'u';
    }
  }

  /** The cascade's error written, when the cascade runs. */
  function Explained(tabled: Props, content: string, exitcode: Value): (r: Props)
    requires FallbackDefined(tabled, content, exitcode)
    ensures ErrorIsText(tabled) ==> ErrorIsText(r)
  {
    if NeedsFallback(tabled) then tabled["error" := Str(FallbackError(tabled, content, exitcode))]
    else tabled
  }

  /** A truthy error flagged as unexplained or not. */
  function Flagged(m: Props): Props
    requires ErrorIsText(m)
  {
    var error := Get(m, "error");
    if Truthy(error) then m["unexplained_error" := Bool(StartsWith(error.s, "unexplained"))]
    else m
  }

  /** `get_error` on a run's properties. */
  function Classified(m: Props, content: string): (r: Props)
    requires ClassifyDefined(m, content)
    ensures "search_error" !in r
    ensures forall k :: k != "search_error" && k != "coverage" && k != "error" && k != "unexplained_error" ==>
      SameAt(m, r, k)
  {
    Flagged(Explained(Tabled(m), content, Get(m, "search_returncode")))
  }

  /** The exit-code loop of `get_error`: every table entry whose code equals
      the exit code overwrites the error, so the last match wins. */
  method ApplyExitCodeTable(exitcode: Value, table: seq<(int, string)>, props: Properties)
    modifies props
    ensures props.entries == WithError(old(props.entries), TableError(exitcode, table))
    ensures props.unexplainedErrors == old(props.unexplainedErrors)
  {
    ghost var start := props.entries;
    for t := 0 to |table|
      invariant props.entries == WithError(start, TableError(exitcode, table[..t]))
      invariant props.unexplainedErrors == old(props.unexplainedErrors)
    {
      assert table[..t + 1][..t] == table[..t];
      if EqualsInt(exitcode, table[t].0) {
        props.entries := props.entries["error" := Str(table[t].1)];
      }
    }
    assert table[..|table|] == table;
  }

  /** The if/elif cascade of `get_error` for an uncovered run without error. */
  method ExplainFailure(content: string, exitcode: Value, props: Properties)
    requires NeedsFallback(props.entries) && FallbackDefined(props.entries, content, exitcode)
    modifies props
    ensures props.entries ==
      old(props.entries)["error" := Str(FallbackError(old(props.entries), content, exitcode))]
    ensures props.unexplainedErrors == old(props.unexplainedErrors)
  {
    var error;
    if EqualsInt(Get(props.entries, "unsolvable"), 1) {
      error := "probably-unsolvable-exitcode-" + IntToString(exitcode.n.i);
    } else if EqualsInt(Get(props.entries, "validate_error"), 1) {
      error := "unexplained-invalid-solution";
    } else if Contains(content, "bad_alloc") {
      error := "probably-out-of-memory-exitcode-" + IntToString(exitcode.n.i);
    } else if EqualsInt(exitcode, ExitSigkill) {
      var timeLeft := RemainingFraction(props.entries, "limit_search_time", "last_logged_time");
      var memoryLeft := RemainingFraction(props.entries, "limit_search_memory", "last_logged_memory");
      error := SigkillError(timeLeft, memoryLeft);
    } else {
      error := "unexplained";
    }
    props.entries := props.entries["error" := Str(error)];
  }

  /** `get_error`: deletes `search_error`, forces coverage 0 after an earlier
      error, applies the exit-code table, runs the cascade when coverage is 0
      and no error is known, and flags errors that start with "unexplained". */
  method GetError(content: string, props: Properties)
    requires ClassifyDefined(props.entries, content)
    modifies props
    ensures props.entries == Classified(old(props.entries), content)
    ensures props.unexplainedErrors == old(props.unexplainedErrors)
  {
    var exitcode := Get(props.entries, "search_returncode");
    ClearStaleError(props);
    ApplyExitCodeTable(exitcode, ExitCodeErrors, props);
    if EqualsInt(Get(props.entries, "coverage"), 0) && Get(props.entries, "error") == Null {
      ExplainFailure(content, exitcode, props);
    }
    FlagUnexplained(props);
  }

  /** The first statements of `get_error`. */
  method ClearStaleError(props: Properties)
    modifies props
    ensures props.entries == Cleared(old(props.entries))
    ensures props.unexplainedErrors == old(props.unexplainedErrors)
  {
    if "search_error" in props.entries {
      props.entries := props.entries - {"search_error"};
    } else {
      assert props.entries == old(props.entries) - {"search_error"};
    }
    if Get(props.entries, "error") != Null {
      props.entries := props.entries["coverage" := Num(Int(0))];
    }
  }

  /** The last statement of `get_error`. */
  method FlagUnexplained(props: Properties)
    requires ErrorIsText(props.entries)
    modifies props
    ensures props.entries == Flagged(old(props.entries))
    ensures props.unexplainedErrors == old(props.unexplainedErrors)
  {
    var error := Get(props.entries, "error");
    if Truthy(error) {
      props.entries := props.entries["unexplained_error" := Bool(StartsWith(error.s, "unexplained"))];
    }
  }

  /** The scratch flag `search_error` never survives classification. */
  lemma ClassifiedDropsSearchError(m: Props, content: string)
    requires ClassifyDefined(m, content)
    ensures "search_error" !in Classified(m, content)
  {
  }

  /** An error known before classification makes the run uncovered. */
  lemma ClassifiedKnownErrorUncovers(m: Props, content: string)
    requires ClassifyDefined(m, content) && Get(m, "error") != Null
    ensures Get(Classified(m, content), "coverage") == Num(Int(0))
  {
  }

  /** An exit code of the table decides the error, whatever the log says and
      whatever error was known before. */
  lemma ClassifiedByExitCode(m: Props, content: string)
    requires ClassifyDefined(m, content)
    requires TableError(Get(m, "search_returncode"), ExitCodeErrors).Some?
    ensures Get(Classified(m, content), "error") ==
      Str(TableError(Get(m, "search_returncode"), ExitCodeErrors).value)
  {
  }

  /** A covered run, or one whose error is already known, keeps the error it
      has after the exit-code table: the cascade does not run. */
  lemma ClassifiedWithoutFallback(m: Props, content: string)
    requires ClassifyDefined(m, content)
    requires !EqualsInt(Get(Tabled(m), "coverage"), 0) || Get(Tabled(m), "error") != Null
    ensures Get(Classified(m, content), "error") == Get(Tabled(m), "error")
  {
  }

  /** Otherwise the cascade's first matching case sets the error. */
  lemma ClassifiedWithFallback(m: Props, content: string)
    requires ClassifyDefined(m, content) && NeedsFallback(Tabled(m))
    ensures Get(Classified(m, content), "error") ==
      Str(FallbackError(Tabled(m), content, Get(m, "search_returncode")))
  {
  }

  /** Whenever the error is truthy, `unexplained_error` says whether it
      starts with "unexplained"; otherwise the flag is as before. */
  lemma ClassifiedFlag(m: Props, content: string)
    requires ClassifyDefined(m, content)
    ensures var r := Classified(m, content);
      Truthy(Get(r, "error")) ==>
        "unexplained_error" in r && r["unexplained_error"] == Bool(StartsWith(r["error"].s, "unexplained"))
    ensures var r := Classified(m, content);
      !Truthy(Get(r, "error")) ==> SameAt(m, r, "unexplained_error")
  {
  }

  /** Classification touches only `search_error`, `coverage`, `error` and
      `unexplained_error`. */
  lemma ClassifiedFrame(m: Props, content: string, k: string)
    requires ClassifyDefined(m, content)
    requires k != "search_error" && k != "coverage" && k != "error" && k != "unexplained_error"
    ensures SameAt(m, Classified(m, content), k)
  {
  }

  /** With 1800 s and 2048 MB limits: 95% of the time used (exactly 5% left)
      and half the memory is an unexplained SIGKILL, not a probable timeout;
      half the time and 97% of the memory is a probable out-of-memory. */
  lemma SigkillExamples()
    ensures SigkillError((1800.0 - 1710.0) / 1800.0, (2048.0 - 1024.0) / 2048.0) == "unexplained-sigkill"
    ensures SigkillError((1800.0 - 900.0) / 1800.0, (2048.0 - 1986.56) / 2048.0) ==
      "unexplained-probably-out-of-memory"
  {
    assert (1800.0 - 1710.0) / 1800.0 == 0.05;
    SigkillBoundary((2048.0 - 1024.0) / 2048.0);
  }

  /** The cascade on a run's properties: a SIGKILL with no logged time and
      1986.56 of 2048 MB logged has 100% of its time and 3% of its memory
      left, so it probably ran out of memory. */
  lemma FallbackSigkillExample()
    ensures var m := map["coverage" := Num(Int(0)), "limit_search_time" := Num(Int(1800)),
                         "limit_search_memory" := Num(Int(2048)),
                         "last_logged_memory" := Num(Float(1986.56))];
      NeedsFallback(m) && FallbackDefined(m, "", Num(Int(ExitSigkill)))
      && FallbackError(m, "", Num(Int(ExitSigkill))) == "unexplained-probably-out-of-memory"
  {
    var m := map["coverage" := Num(Int(0)), "limit_search_time" := Num(Int(1800)),
                 "limit_search_memory" := Num(Int(2048)),
                 "last_logged_memory" := Num(Float(1986.56))];
    assert RemainingFraction(m, "limit_search_time", "last_logged_time") == 1.0;
    assert RemainingFraction(m, "limit_search_memory", "last_logged_memory") == (2048.0 - 1986.56) / 2048.0;
  }

  /** `get_error` is not idempotent: a covered run with exit code 6 gets the
      error "out-of-memory" and keeps coverage 1; classifying the result again
      sees that error and sets coverage to 0. */
  lemma ClassifiedNotIdempotent()
    ensures var m := map["coverage" := Num(Int(1)), "search_returncode" := Num(Int(ExitOutOfMemory))];
      ClassifyDefined(m, "") && ClassifyDefined(Classified(m, ""), "")
      && Classified(Classified(m, ""), "") != Classified(m, "")
  {
    var m := map["coverage" := Num(Int(1)), "search_returncode" := Num(Int(ExitOutOfMemory))];
    ExitCodeErrorsTable(6);
    var once := Classified(m, "");
    assert once["coverage"] == Num(Int(1));
    assert once["error"] == Str("out-of-memory");
    assert Get(once, "search_returncode") == Num(Int(6));
    var twice := Classified(once, "");
    assert twice["coverage"] == Num(Int(0));
  }
}
