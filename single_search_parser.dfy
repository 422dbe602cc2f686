/**
 * The steps of the single-search log parser (`single-search-parser.py`).
 * It shares the line scans of `Collector` with the search parser but differs
 * in its decisions: a malformed iterative log is recorded as an unexplained
 * error instead of failing, coverage needs both a plan length and a cost,
 * the memory check never writes None, initial heuristic values are grouped
 * per heuristic, and scores lie in [0, 1] with optional time and memory
 * scores.
 */
module SingleSearchParser {
  import opened Wrappers
  import opened Text
  import opened RunProps
  import opened Collector
  import opened Scoring
  import SearchParser

  // ---------------------------------------------------------------------------
  // Pattern tables (attribute names in table order)

  const CommonNames := ["dead_ends", "evaluated", "evaluations", "expansions", "generated", "reopened"]

  const IterativeNames := CommonNames + SearchParser.PortfolioNames + ["search_time"]

  const CumulativeNames := CommonNames +
    ["evaluations_until_last_jump", "expansions_until_last_jump", "generated_until_last_jump",
     "reopened_until_last_jump", "search_time", "total_time", "raw_memory"]

  /** The groups whose lists should have one common length. */
  const IterativeGroups := [SearchParser.CostGroup, SearchParser.SearchGroup]

  const MalformedLog := "malformed-log"

  // ---------------------------------------------------------------------------
  // Iterative results

  /** Reading the lists of each group in turn, as `_same_length(values[attr]
      for attr in group)` does on a `defaultdict(list)`. */
  function TouchGroups(values: map<string, seq<Number>>, groups: seq<seq<string>>): map<string, seq<Number>>
    decreases |groups|
  {
    if groups == [] then values
    else TouchAll(TouchGroups(values, groups[..|groups| - 1]), groups[|groups| - 1])
  }

  /** Reading changes no list, and leaves a list for every key read. */
  lemma {:induction false} TouchGroupsLookup(values: map<string, seq<Number>>, groups: seq<seq<string>>)
    ensures forall k :: Lookup(TouchGroups(values, groups), k) == Lookup(values, k)
    ensures forall k :: k in values ==> k in TouchGroups(values, groups)
    ensures forall i, k :: 0 <= i < |groups| && k in groups[i] ==> k in TouchGroups(values, groups)
    decreases |groups|
  {
    if groups != [] {
      var init := groups[..|groups| - 1];
      TouchGroupsLookup(values, init);
      assert forall i :: 0 <= i < |init| ==> init[i] == groups[i];
    }
  }

  /** The errors the group checks record: one per group, in group order,
      whose lists do not all have one length. */
  function MalformedErrors(values: map<string, seq<Number>>, groups: seq<seq<string>>): seq<string>
    decreases |groups|
  {
    if groups == [] then []
    else
      MalformedErrors(values, groups[..|groups| - 1])
      + (if SameLength(GroupLists(values, groups[|groups| - 1])) then [] else [MalformedLog])
  }

  /** At most one error per group, every one of them "malformed-log", and
      none exactly when every group is well formed. */
  lemma {:induction false} MalformedErrorsNone(values: map<string, seq<Number>>, groups: seq<seq<string>>)
    ensures |MalformedErrors(values, groups)| <= |groups|
    ensures forall i :: 0 <= i < |MalformedErrors(values, groups)| ==> MalformedErrors(values, groups)[i] == MalformedLog
    ensures MalformedErrors(values, groups) == [] <==>
      forall i :: 0 <= i < |groups| ==> SameLength(GroupLists(values, groups[i]))
    decreases |groups|
  {
    if groups != [] {
      var init := groups[..|groups| - 1];
      MalformedErrorsNone(values, init);
      assert forall i :: 0 <= i < |init| ==> init[i] == groups[i];
    }
  }

  /** Reading lists does not change any group's lists. */
  lemma GroupListsTouchGroups(values: map<string, seq<Number>>, groups: seq<seq<string>>, group: seq<string>)
    ensures GroupLists(TouchGroups(values, groups), group) == GroupLists(values, group)
  {
    TouchGroupsLookup(values, groups);
  }

  /** Checking one more group reads its lists and records at most one error. */
  lemma GroupsStep(values: map<string, seq<Number>>, groups: seq<seq<string>>, i: nat)
    requires i < |groups|
    ensures TouchGroups(values, groups[..i + 1]) == TouchAll(TouchGroups(values, groups[..i]), groups[i])
    ensures MalformedErrors(values, groups[..i + 1]) == MalformedErrors(values, groups[..i])
      + (if SameLength(GroupLists(TouchGroups(values, groups[..i]), groups[i])) then [] else [MalformedLog])
  {
    assert groups[..i + 1][..i] == groups[..i];
    GroupListsTouchGroups(values, groups[..i], groups[i]);
  }

  /** One group check: reads the group's lists and records "malformed-log"
      when their lengths differ. */
  method CheckOneGroup(values: map<string, seq<Number>>, group: seq<string>, props: Properties)
      returns (touched: map<string, seq<Number>>)
    modifies props
    ensures touched == TouchAll(values, group)
    ensures props.entries == old(props.entries)
    ensures props.unexplainedErrors == old(props.unexplainedErrors)
      + (if SameLength(GroupLists(values, group)) then [] else [MalformedLog])
  {
    var same;
    same, touched := CheckGroup(values, group);
    if !same {
      props.AddUnexplainedError(MalformedLog);
    }
  }

  /** The group checks of `_update_props_with_iterative_values`: a group
      whose lists differ in length records "malformed-log" and the checks go
      on; reading the lists gives every attribute of every group a list. */
  method CheckGroupsInTurn(values: map<string, seq<Number>>, groups: seq<seq<string>>, props: Properties)
      returns (touched: map<string, seq<Number>>)
    modifies props
    ensures touched == TouchGroups(values, groups)
    ensures props.entries == old(props.entries)
    ensures props.unexplainedErrors == old(props.unexplainedErrors) + MalformedErrors(values, groups)
  {
    touched := values;
    for i := 0 to |groups|
      invariant touched == TouchGroups(values, groups[..i])
      invariant props.entries == old(props.entries)
      invariant props.unexplainedErrors == old(props.unexplainedErrors) + MalformedErrors(values, groups[..i])
    {
      GroupsStep(values, groups, i);
      touched := CheckOneGroup(touched, groups[i], props);
    }
    assert groups[..|groups|] == groups;
  }

  /** `_update_props_with_iterative_values`: the group checks never stop the
      step; every list is then stored under its `_all` key and the minima of
      the non-empty `cost` and `plan_length` lists are stored. */
  method UpdatePropsWithIterativeValues(values: map<string, seq<Number>>, groups: seq<seq<string>>,
                                        props: Properties)
    modifies props
    ensures IterativeStored(old(props.entries), props.entries, TouchGroups(values, groups))
    ensures props.unexplainedErrors == old(props.unexplainedErrors) + MalformedErrors(values, groups)
  {
    var touched := CheckGroupsInTurn(values, groups, props);
    StoreIterative(touched, props);
  }

  /** The lists collected above the sentinel, with a surplus search time dropped. */
  function Collected(lines: seq<string>, patterns: seq<Pattern>): map<string, seq<Number>> {
    Trimmed(GroupBy(Claims(ScannedLines(lines, true), patterns)))
  }

  /** The lists `get_iterative_results` stores. */
  function IterativeValues(lines: seq<string>, patterns: seq<Pattern>): map<string, seq<Number>> {
    TouchGroups(Collected(lines, patterns), IterativeGroups)
  }

  /** Outside `search_time`, each stored list is exactly the values claimed
      for its attribute above the sentinel, in line order; every attribute of
      the two groups has a list. */
  lemma IterativeValuesLists(lines: seq<string>, patterns: seq<Pattern>, k: string)
    requires k != "search_time"
    ensures Lookup(IterativeValues(lines, patterns), k) ==
      ValuesFor(Claims(ScannedLines(lines, true), patterns), k)
    ensures forall i, g :: 0 <= i < |IterativeGroups| && g in IterativeGroups[i] ==>
      g in IterativeValues(lines, patterns)
  {
    GroupByIsFilter(Claims(ScannedLines(lines, true), patterns));
    TouchGroupsLookup(Collected(lines, patterns), IterativeGroups);
  }

  /** `get_iterative_results`: collect above the sentinel, drop a surplus
      search time, check the groups and store the lists. */
  method GetIterativeResults(lines: seq<string>, patterns: seq<Pattern>, props: Properties)
    requires Names(patterns) == IterativeNames
    modifies props
    ensures IterativeStored(old(props.entries), props.entries, IterativeValues(lines, patterns))
    ensures props.unexplainedErrors ==
      old(props.unexplainedErrors) + MalformedErrors(Collected(lines, patterns), IterativeGroups)
  {
    var values := CollectIterative(lines, patterns, true);
    values := PopSurplusSearchTime(values);
    UpdatePropsWithIterativeValues(values, IterativeGroups, props);
  }

  // ---------------------------------------------------------------------------
  // Cumulative results

  lemma CumulativeNamesDistinct(patterns: seq<Pattern>)
    requires Names(patterns) == CumulativeNames
    ensures DistinctNames(patterns)
  {
    forall i, j | 0 <= i < j < |patterns| ensures patterns[i].name != patterns[j].name {
      assert patterns[i].name == CumulativeNames[i] && patterns[j].name == CumulativeNames[j];
    }
  }

  /** `get_cumulative_results`: each attribute that matches below the last
      sentinel holds its match nearest the sentinel, overwriting any earlier
      value; every other key is as before. */
  method GetCumulativeResults(lines: seq<string>, patterns: seq<Pattern>, props: Properties)
    requires Names(patterns) == CumulativeNames
    modifies props
    ensures forall i :: 0 <= i < |patterns| ==>
      HitStored(old(props.entries), props.entries, patterns[i].name,
                FirstHit(AfterLastSentinel(lines), patterns[i].search))
    ensures forall k :: k !in CumulativeNames ==> SameAt(old(props.entries), props.entries, k)
    ensures props.unexplainedErrors == old(props.unexplainedErrors)
  {
    CumulativePass(lines, patterns, props);
    CumulativeNamesDistinct(patterns);
    forall i | 0 <= i < |patterns|
      ensures HitStored(old(props.entries), props.entries, patterns[i].name,
                        FirstHit(AfterLastSentinel(lines), patterns[i].search))
    {
      CumulativeValueOf(old(props.entries), lines, patterns, i);
    }
    forall k | k !in CumulativeNames ensures SameAt(old(props.entries), props.entries, k) {
      assert forall i :: 0 <= i < |patterns| ==> patterns[i].name == Names(patterns)[i];
      CumulativeValuesElsewhere(old(props.entries), lines, patterns, k);
    }
  }

  // ---------------------------------------------------------------------------
  // Coverage and memory

  /** `int('plan_length' in props and 'cost' in props)`. */
  function CoverageFlag(m: Props): (c: int)
    ensures c == 0 || c == 1
  {
    if "plan_length" in m && "cost" in m then 1 else 0
  }

  method Coverage(props: Properties)
    modifies props
    ensures props.entries == old(props.entries)["coverage" := Num(Int(CoverageFlag(old(props.entries))))]
    ensures props.unexplainedErrors == old(props.unexplainedErrors)
  {
    var covered := "plan_length" in props.entries && "cost" in props.entries;
    props.entries := props.entries["coverage" := Num(Int(if covered then 1 else 0))];
  }

  /** This parser covers a run only when both a plan length and a cost were
      found, so it never covers a run the search parser leaves uncovered
      (without a validation error); a cost alone is covered only there. */
  lemma CoverageNeedsBoth(m: Props)
    ensures CoverageFlag(m) == 1 <==> "plan_length" in m && "cost" in m
    ensures CoverageFlag(m) == 1 && !Truthy(Get(m, "validate_error")) ==> SearchParser.CoverageFlag(m) == 1
    ensures var costOnly := map["cost" := Num(Float(12.0))];
      CoverageFlag(costOnly) == 0 && SearchParser.CoverageFlag(costOnly) == 1
  {
  }

  /** The peak memory was logged: `raw_memory` is present, not None and not negative. */
  predicate RawMemoryKnown(m: Props) {
    var raw := Get(m, "raw_memory");
    raw.Num? && raw.n.Real() >= 0.0
  }

  /** What `check_memory` can process without raising: a numeric or missing
      `raw_memory`, and the keys `solved` reads when the memory is known. */
  predicate CheckMemoryDefined(m: Props) {
    (Get(m, "raw_memory") == Null || Get(m, "raw_memory").Num?)
    && (RawMemoryKnown(m) ==> "coverage" in m && (!Truthy(m["coverage"]) ==> "unsolvable" in m))
  }

  /** The properties after `check_memory`. */
  function MemoryChecked(m: Props): (r: Props)
    requires CheckMemoryDefined(m)
    ensures forall k :: k != "memory" ==> SameAt(m, r, k)
  {
    if RawMemoryKnown(m) && Truthy(Successful(m)) then m["memory" := m["raw_memory"]] else m
  }

  /** The error `check_memory` records. */
  function MemoryErrors(m: Props): seq<string> {
    if RawMemoryKnown(m) then [] else ["could-not-determine-peak-memory"]
  }

  /** `check_memory`: an unknown peak memory is recorded as an error and
      nothing is written; a solved run gets its peak memory as `memory`. */
  method CheckMemory(props: Properties)
    requires CheckMemoryDefined(props.entries)
    modifies props
    ensures props.entries == MemoryChecked(old(props.entries))
    ensures props.unexplainedErrors == old(props.unexplainedErrors) + MemoryErrors(old(props.entries))
  {
    var rawMemory := Get(props.entries, "raw_memory");
    if rawMemory == Null || rawMemory.n.Real() < 0.0 {
      props.AddUnexplainedError("could-not-determine-peak-memory");
      return;
    }
    if Truthy(Successful(props.entries)) {
      props.entries := props.entries["memory" := rawMemory];
    }
  }

  /** `memory` changes exactly for a solved run with a known peak memory, and
      then becomes that non-negative number; unlike the search parser's
      check, it is never set to None. An error is recorded exactly when the
      peak memory is missing or negative. */
  lemma MemoryCheckedIff(m: Props)
    requires CheckMemoryDefined(m)
    ensures RawMemoryKnown(m) && Truthy(Successful(m)) ==>
      "memory" in MemoryChecked(m) && MemoryChecked(m)["memory"] == m["raw_memory"]
      && MemoryChecked(m)["memory"].n.Real() >= 0.0
    ensures !(RawMemoryKnown(m) && Truthy(Successful(m))) ==> MemoryChecked(m) == m
    ensures "memory" in MemoryChecked(m) && MemoryChecked(m)["memory"] == Null ==>
      "memory" in m && m["memory"] == Null
    ensures MemoryErrors(m) != [] <==>
      Get(m, "raw_memory") == Null || Get(m, "raw_memory").n.Real() < 0.0
  {
  }

  // ---------------------------------------------------------------------------
  // Initial heuristic values

  /** The value a line reports: a number or "infinity". */
  datatype HToken = Infinity | Finite(value: int)

  /** `sys.maxint` of a 64-bit Python 2, which stands for an infinite value. */
  const MaxInt := 0x7FFF_FFFF_FFFF_FFFF

  function HValue(t: HToken): int {
    match t
    case Infinity => MaxInt
    case Finite(v) => v
  }

  /** The (heuristic, value) pairs of the lines reporting an initial
      heuristic value, in line order. */
  function HMatches(lines: seq<string>, initialH: string -> Option<(string, HToken)>): seq<(string, int)>
    decreases |lines|
  {
    if lines == [] then []
    else
      var earlier := HMatches(lines[..|lines| - 1], initialH);
      match initialH(lines[|lines| - 1])
      case None => earlier
      case Some(p) => earlier + [(p.0, HValue(p.1))]
  }

  /** The properties after `get_initial_h_values`: the values grouped per
      heuristic, and the single value when only one was reported. */
  function InitialHValues(m: Props, lines: seq<string>, initialH: string -> Option<(string, HToken)>): (r: Props)
    ensures forall k :: k != "initial_h_values" && k != "initial_h_value" ==> SameAt(m, r, k)
    ensures "initial_h_values" in r && r["initial_h_values"] == HTable(GroupBy(HMatches(lines, initialH)))
  {
    var matches := HMatches(lines, initialH);
    var groups := GroupBy(matches);
    var r := m["initial_h_values" := HTable(groups)];
    if |groups| == 1 && matches != [] && |Lookup(groups, matches[0].0)| == 1 then
      r["initial_h_value" := Num(Int(Lookup(groups, matches[0].0)[0]))]
    else r
  }

  /** Two members of a one-element set are equal. */
  lemma SingletonMembers<T>(s: set<T>, a: T, b: T)
    requires |s| == 1 && a in s && b in s
    ensures a == b
  {
    if a != b {
      SubsetCard({a, b}, s);
    }
  }

  /** `initial_h_value` is written exactly when the log reports one initial
      heuristic value in total, and then it is that value. */
  lemma InitialHValueIff(m: Props, lines: seq<string>, initialH: string -> Option<(string, HToken)>)
    ensures var matches := HMatches(lines, initialH);
      |matches| == 1 ==>
        var r := InitialHValues(m, lines, initialH);
        "initial_h_value" in r && r["initial_h_value"] == Num(Int(matches[0].1))
    ensures |HMatches(lines, initialH)| != 1 ==>
      SameAt(m, InitialHValues(m, lines, initialH), "initial_h_value")
  {
    var matches := HMatches(lines, initialH);
    var groups := GroupBy(matches);
    GroupByIsFilter(matches);
    if |matches| == 1 {
      assert groups.Keys == {matches[0].0};
      assert ValuesFor(matches, matches[0].0) == ValuesFor(matches[..0], matches[0].0) + [matches[0].1];
    } else if |groups| == 1 && matches != [] && |Lookup(groups, matches[0].0)| == 1 {
      var h := matches[0].0;
      forall i | 0 <= i < |matches| ensures matches[i].0 == h {
        SingletonMembers(groups.Keys, matches[i].0, h);
      }
      ValuesForAll(matches, h);
      assert false;
    }
  }

  /** The loop of `get_initial_h_values`: each reported value is appended
      to its heuristic's list. */
  method GroupInitialHValues(lines: seq<string>, initialH: string -> Option<(string, HToken)>)
      returns (heuristicToValues: map<string, seq<int>>)
    ensures heuristicToValues == GroupBy(HMatches(lines, initialH))
  {
    heuristicToValues := map[];
    for i := 0 to |lines|
      invariant heuristicToValues == GroupBy(HMatches(lines[..i], initialH))
    {
      assert lines[..i + 1][..i] == lines[..i];
      var found := initialH(lines[i]);
      if found.Some? {
        heuristicToValues := Append(heuristicToValues, found.value.0, HValue(found.value.1));
      }
    }
    assert lines[..|lines|] == lines;
  }

  /** `get_initial_h_values`: stores the values grouped per heuristic, and
      the value itself when one heuristic reported one value. */
  method GetInitialHValues(lines: seq<string>, initialH: string -> Option<(string, HToken)>, props: Properties)
    modifies props
    ensures props.entries == InitialHValues(old(props.entries), lines, initialH)
    ensures props.unexplainedErrors == old(props.unexplainedErrors)
  {
    var heuristicToValues := GroupInitialHValues(lines, initialH);
    ghost var matches := HMatches(lines, initialH);
    props.entries := props.entries["initial_h_values" := HTable(heuristicToValues)];
    if |heuristicToValues| == 1 {
      var heuristic :| heuristic in heuristicToValues;
      var values := heuristicToValues[heuristic];
      FirstHeuristic(matches, heuristic);
      if |values| == 1 {
        props.entries := props.entries["initial_h_value" := Num(Int(values[0]))];
      }
    }
  }

  /** With a single heuristic, that heuristic is the one of the first report. */
  lemma FirstHeuristic(matches: seq<(string, int)>, h: string)
    requires |GroupBy(matches)| == 1 && h in GroupBy(matches)
    ensures matches != [] && matches[0].0 == h
  {
    GroupByIsFilter(matches);
    assert matches[0].0 in GroupBy(matches);
    SingletonMembers(GroupBy(matches).Keys, h, matches[0].0);
  }

  // ---------------------------------------------------------------------------
  // Scores and time floors

  /** A score of this parser: a number between 0 and 1. */
  predicate InUnit(v: Value) {
    v.Num? && 0.0 <= v.n.Real() <= 1.0
  }

  /** `log_score`: 0 for None; otherwise the value clamped into the bounds
      scores 1 at the lower bound and 0 at the upper one. The bounds are only
      used, and so only need to be positive and distinct, for a value. */
  function ScoreOf(v: Value, lo: real, hi: real, ln: real -> real): (r: Value)
    requires Scorable(v) && Increasing(ln)
    requires v != Null ==> 0.0 < lo && 0.0 < hi && lo != hi
    ensures InUnit(r)
    ensures v == Null ==> r == Num(Int(0))
    ensures v.Num? && lo <= hi && v.n.Real() <= lo ==> r == Num(Float(1.0))
    ensures v.Num? && v.n.Real() >= hi ==> r == Num(Float(0.0))
  {
    if v == Null then Num(Int(0))
    else
      BoundsDiffer(lo, hi, ln);
      var score := LogScore(v, lo, hi, ln);
      assert 0.0 <= score.Real() <= 1.0 by {
        if lo <= hi {
          RatioInUnit(v.n.Real(), lo, hi, ln);
        } else {
          RatioAtLeastUpper(v.n.Real(), lo, hi, ln);
        }
      }
      Num(score)
  }

  /** The attributes that are always scored. */
  const CountedAttributes := ["expansions", "evaluations", "generated"]

  /** The search time limit as a bound; it is only used when it is a number. */
  function TimeLimit(m: Props): real {
    var l := Get(m, "limit_search_time");
    if l.Num? then l.n.Real() else 0.0
  }

  /** `props['limit_search_memory'] * 1024`. */
  function MemoryLimitKB(m: Props): real
    requires "limit_search_memory" in m && m["limit_search_memory"].Num?
  {
    m["limit_search_memory"].n.Real() * 1024.0
  }

  /** What `scores` can compute without raising: the scored values are None
      or numbers, the memory limit is a number (it is multiplied), and a
      bound that a value is scored against is positive and differs from the
      lower bound. */
  ghost predicate ScoresDefined(m: Props, ln: real -> real) {
    Increasing(ln)
    && Scorable(Get(m, "expansions")) && Scorable(Get(m, "evaluations")) && Scorable(Get(m, "generated"))
    && ("limit_search_time" in m ==>
          Scorable(Get(m, "total_time")) && Scorable(Get(m, "search_time"))
          && (Get(m, "total_time") != Null || Get(m, "search_time") != Null ==>
                m["limit_search_time"].Num? && 0.0 < TimeLimit(m) && TimeLimit(m) != 1.0))
    && ("limit_search_memory" in m ==>
          m["limit_search_memory"].Num? && Scorable(Get(m, "memory"))
          && (Get(m, "memory") != Null ==> 0.0 < MemoryLimitKB(m) && MemoryLimitKB(m) != 2000.0))
  }

  /** A key `score_<attr>` for a counted attribute: the attributes start
      with 'e' or 'g', which no other key of `scores` has at that place. */
  predicate CountedKey(k: string) {
    |k| > 6 && k[0] == 's' && (k[6] == 'e' || k[6] == 'g')
  }

  lemma CountedKeyOf(a: string)
    requires a in CountedAttributes
    ensures CountedKey("score_" + a) && !CountedKey(a)
  {
    assert ("score_" + a)[0] == 's' && ("score_" + a)[6] == a[0];
  }

  /** The scores of the counted attributes in `attrs`, bounded by 100 and 10^6. */
  function CountedScores(m: Props, attrs: seq<string>, ln: real -> real): (s: map<string, Value>)
    requires Increasing(ln) && forall a :: a in attrs ==> a in CountedAttributes && Scorable(Get(m, a))
    ensures forall k :: k in s ==> InUnit(s[k]) && CountedKey(k)
    ensures forall a :: a in attrs ==> "score_" + a in s
    decreases |attrs|
  {
    if attrs == [] then map[]
    else
      var a := attrs[|attrs| - 1];
      CountedKeyOf(a);
      CountedScores(m, attrs[..|attrs| - 1], ln)["score_" + a := ScoreOf(Get(m, a), 100.0, 1000000.0, ln)]
  }

  /** The time scores, written when a time limit is known. */
  function TimeScores(m: Props, ln: real -> real): (s: map<string, Value>)
    requires ScoresDefined(m, ln)
    ensures forall k :: k in s ==> InUnit(s[k])
  {
    if "limit_search_time" in m then
      map["score_total_time" := ScoreOf(Get(m, "total_time"), 1.0, TimeLimit(m), ln),
          "score_search_time" := ScoreOf(Get(m, "search_time"), 1.0, TimeLimit(m), ln)]
    else map[]
  }

  /** The memory score, written when a memory limit is known. */
  function MemoryScore(m: Props, ln: real -> real): (s: map<string, Value>)
    requires ScoresDefined(m, ln)
    ensures forall k :: k in s ==> InUnit(s[k])
  {
    if "limit_search_memory" in m then
      map["score_memory" := ScoreOf(Get(m, "memory"), 2000.0, MemoryLimitKB(m), ln)]
    else map[]
  }

  /** Everything `scores` writes. */
  function SingleScores(m: Props, ln: real -> real): map<string, Value>
    requires ScoresDefined(m, ln)
  {
    CountedScores(m, CountedAttributes, ln) + TimeScores(m, ln) + MemoryScore(m, ln)
  }

  /** Every score lies between 0 and 1; the counted attributes are always
      scored, the times exactly when a time limit is known and the memory
      exactly when a memory limit is known. */
  lemma SingleScoresWritten(m: Props, ln: real -> real)
    requires ScoresDefined(m, ln)
    ensures forall k :: k in SingleScores(m, ln) ==> InUnit(SingleScores(m, ln)[k])
    ensures forall a :: a in CountedAttributes ==> "score_" + a in SingleScores(m, ln)
    ensures "score_total_time" in SingleScores(m, ln) <==> "limit_search_time" in m
    ensures "score_search_time" in SingleScores(m, ln) <==> "limit_search_time" in m
    ensures "score_memory" in SingleScores(m, ln) <==> "limit_search_memory" in m
  {
    OptionalKeysAreNotCounted();
  }

  lemma OptionalKeysAreNotCounted()
    ensures !CountedKey("score_total_time") && !CountedKey("score_search_time") && !CountedKey("score_memory")
  {
  }

  /** Adding an entry to a map and then merging equals merging and then adding it. */
  lemma UnionUpdate(m: Props, s: map<string, Value>, k: string, v: Value)
    ensures m + s[k := v] == (m + s)[k := v]
  {
  }

  lemma UnionAssociative(a: Props, b: map<string, Value>, c: map<string, Value>)
    ensures a + (b + c) == (a + b) + c
  {
  }

  /** The loop of `scores` over the counted attributes. */
  method ScoreCounted(props: Properties, ln: real -> real)
    requires Increasing(ln)
    requires forall a :: a in CountedAttributes ==> Scorable(Get(props.entries, a))
    modifies props
    ensures props.entries == old(props.entries) + CountedScores(old(props.entries), CountedAttributes, ln)
    ensures props.unexplainedErrors == old(props.unexplainedErrors)
  {
    ghost var m := props.entries;
    for k := 0 to |CountedAttributes|
      invariant props.entries == m + CountedScores(m, CountedAttributes[..k], ln)
      invariant props.unexplainedErrors == old(props.unexplainedErrors)
    {
      var attr := CountedAttributes[k];
      assert CountedAttributes[..k + 1][..k] == CountedAttributes[..k];
      CountedKeyOf(attr);
      assert Get(props.entries, attr) == Get(m, attr);
      var score := ScoreOf(Get(props.entries, attr), 100.0, 1000000.0, ln);
      UnionUpdate(m, CountedScores(m, CountedAttributes[..k], ln), "score_" + attr, score);
      props.entries := props.entries["score_" + attr := score];
    }
    assert CountedAttributes[..|CountedAttributes|] == CountedAttributes;
  }

  /** The time scores of `scores`, when a time limit is known. */
  method ScoreTimes(props: Properties, ln: real -> real)
    requires ScoresDefined(props.entries, ln)
    modifies props
    ensures props.entries == old(props.entries) + TimeScores(old(props.entries), ln)
    ensures props.unexplainedErrors == old(props.unexplainedErrors)
  {
    if "limit_search_time" in props.entries {
      var maxTime := TimeLimit(props.entries);
      var total := ScoreOf(Get(props.entries, "total_time"), 1.0, maxTime, ln);
      var search := ScoreOf(Get(props.entries, "search_time"), 1.0, maxTime, ln);
      props.entries := props.entries["score_total_time" := total];
      props.entries := props.entries["score_search_time" := search];
    }
  }

  /** The memory score of `scores`, when a memory limit is known. */
  method ScoreMemory(props: Properties, ln: real -> real)
    requires ScoresDefined(props.entries, ln)
    modifies props
    ensures props.entries == old(props.entries) + MemoryScore(old(props.entries), ln)
    ensures props.unexplainedErrors == old(props.unexplainedErrors)
  {
    if "limit_search_memory" in props.entries {
      var maxMemoryKB := MemoryLimitKB(props.entries);
      props.entries := props.entries["score_memory" := ScoreOf(Get(props.entries, "memory"), 2000.0, maxMemoryKB, ln)];
    }
  }

  /** The inputs of the scores: the scored values and the limits. */
  predicate SameScoreInputs(m1: Props, m2: Props) {
    SameAt(m1, m2, "expansions") && SameAt(m1, m2, "evaluations") && SameAt(m1, m2, "generated")
    && SameAt(m1, m2, "total_time") && SameAt(m1, m2, "search_time") && SameAt(m1, m2, "memory")
    && SameAt(m1, m2, "limit_search_time") && SameAt(m1, m2, "limit_search_memory")
  }

  /** The optional scores depend only on the inputs. */
  lemma OptionalScoresFrame(m1: Props, m2: Props, ln: real -> real)
    requires ScoresDefined(m1, ln) && SameScoreInputs(m1, m2)
    ensures ScoresDefined(m2, ln)
    ensures TimeScores(m1, ln) == TimeScores(m2, ln) && MemoryScore(m1, ln) == MemoryScore(m2, ln)
  {
    assert Get(m1, "total_time") == Get(m2, "total_time") && Get(m1, "search_time") == Get(m2, "search_time");
    assert Get(m1, "memory") == Get(m2, "memory") && TimeLimit(m1) == TimeLimit(m2);
  }

  /** No input of the scores is the key of a counted score. */
  lemma InputsAreNotCountedKeys()
    ensures !CountedKey("expansions") && !CountedKey("evaluations") && !CountedKey("generated")
    ensures !CountedKey("total_time") && !CountedKey("search_time") && !CountedKey("memory")
    ensures !CountedKey("limit_search_time") && !CountedKey("limit_search_memory")
  {
  }

  /** Writing counted scores changes none of the inputs. */
  lemma CountedScoresKeepInputs(m: Props, s: map<string, Value>)
    requires forall k :: k in s ==> CountedKey(k)
    ensures SameScoreInputs(m, m + s)
  {
    InputsAreNotCountedKeys();
  }

  /** The time scores change none of the inputs. */
  lemma TimeScoresKeepInputs(m: Props, ln: real -> real)
    requires ScoresDefined(m, ln)
    ensures SameScoreInputs(m, m + TimeScores(m, ln))
  {
  }

  /** `scores`: the counted attributes, then the optional time and memory
      scores; nothing else changes. */
  method Scores(props: Properties, ln: real -> real)
    requires ScoresDefined(props.entries, ln)
    modifies props
    ensures props.entries == old(props.entries) + SingleScores(old(props.entries), ln)
    ensures props.unexplainedErrors == old(props.unexplainedErrors)
  {
    ghost var m := props.entries;
    ScoreCounted(props, ln);
    ghost var counted := props.entries;
    CountedScoresKeepInputs(m, CountedScores(m, CountedAttributes, ln));
    OptionalScoresFrame(m, counted, ln);
    ScoreTimes(props, ln);
    ghost var timed := props.entries;
    TimeScoresKeepInputs(counted, ln);
    OptionalScoresFrame(counted, timed, ln);
    ScoreMemory(props, ln);
    UnionAssociative(m, CountedScores(m, CountedAttributes, ln), TimeScores(m, ln));
    UnionAssociative(m, CountedScores(m, CountedAttributes, ln) + TimeScores(m, ln), MemoryScore(m, ln));
  }

  /** `check_min_values`: present times are raised to at least 0.01 s. */
  method CheckMinValues(props: Properties)
    modifies props
    ensures props.entries == RaisedTimes(old(props.entries), TimeAttributes, 0.01)
    ensures props.unexplainedErrors == old(props.unexplainedErrors)
  {
    RaiseTimesToFloor(props, 0.01);
  }
}
