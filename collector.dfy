/**
 * The line scans shared by the two search-log parsers: the top-down
 * iterative collector (first pattern claims a line, values kept per
 * attribute in line order, stop at the cumulative-statistics sentinel),
 * storing the collected lists and minima, the bottom-up cumulative pass,
 * the last-match scan, and the time helpers run after them.
 */
module Collector {
  import opened Wrappers
  import opened Text
  import opened RunProps

  /** The line after which a search log prints cumulative statistics. */
  const Sentinel := "Cumulative statistics:"

  /** One entry of a pattern table: the attribute it fills, and the regular
      expression search followed by the cast of the captured group, which
      yields a number when the line matches. */
  datatype Pattern = Pattern(name: string, search: string -> Option<Number>)

  function Names(ps: seq<Pattern>): (r: seq<string>)
    ensures |r| == |ps| && forall i :: 0 <= i < |ps| ==> r[i] == ps[i].name
  {
    seq(|ps|, i requires 0 <= i < |ps| => ps[i].name)
  }

  predicate DistinctNames(ps: seq<Pattern>) {
    forall i, j :: 0 <= i < j < |ps| ==> ps[i].name != ps[j].name
  }

  // ---------------------------------------------------------------------------
  // Claiming lines

  /** The first pattern of the table that matches `line`. */
  function FirstMatch(patterns: seq<Pattern>, line: string): (r: Option<nat>)
    ensures r.Some? ==> r.value < |patterns| && patterns[r.value].search(line).Some?
    ensures r.Some? ==> forall j :: 0 <= j < r.value ==> patterns[j].search(line).None?
    ensures r.None? ==> forall j :: 0 <= j < |patterns| ==> patterns[j].search(line).None?
    decreases |patterns|
  {
    if patterns == [] then None
    else if patterns[0].search(line).Some? then Some(0)
    else match FirstMatch(patterns[1..], line)
      case None => None
      case Some(k) => Some(k + 1)
  }

  /** The attribute and value a line contributes: that of the first matching pattern. */
  function Claim(patterns: seq<Pattern>, line: string): Option<(string, Number)> {
    match FirstMatch(patterns, line)
    case None => None
    case Some(k) => Some((patterns[k].name, patterns[k].search(line).value))
  }

  /** The claims of all lines, in line order. */
  function Claims(lines: seq<string>, patterns: seq<Pattern>): (r: seq<(string, Number)>)
    ensures |r| <= |lines|
    ensures forall i :: 0 <= i < |r| ==> r[i].0 in Names(patterns)
    decreases |lines|
  {
    if lines == [] then []
    else
      var earlier := Claims(lines[..|lines| - 1], patterns);
      match Claim(patterns, lines[|lines| - 1])
      case None => earlier
      case Some(c) => earlier + [c]
  }

  /** Index of the first sentinel line, or the number of lines if there is none. */
  function ScanLimit(lines: seq<string>): (n: nat)
    ensures n <= |lines|
    ensures n < |lines| ==> lines[n] == Sentinel
    ensures forall i :: 0 <= i < n ==> lines[i] != Sentinel
    decreases |lines|
  {
    if lines == [] || lines[0] == Sentinel then 0 else 1 + ScanLimit(lines[1..])
  }

  /** The lines an iterative scan reads: those before the first sentinel when
      the scan stops there, otherwise all of them. */
  function ScannedLines(lines: seq<string>, stopAtSentinel: bool): seq<string> {
    if stopAtSentinel then lines[..ScanLimit(lines)] else lines
  }

  // ---------------------------------------------------------------------------
  // Per-attribute lists (a `defaultdict(list)`)

  /** `values[k]` on a `defaultdict(list)`, without the side effect. */
  function Lookup<V>(values: map<string, seq<V>>, k: string): seq<V> {
    if k in values then values[k] else []
  }

  /** Reading `values[k]` on a `defaultdict(list)` inserts an empty list for
      a missing key; no list changes. */
  function Touch<V>(values: map<string, seq<V>>, k: string): (r: map<string, seq<V>>)
    ensures r.Keys == values.Keys + {k}
    ensures forall j :: Lookup(r, j) == Lookup(values, j)
  {
    values[k := Lookup(values, k)]
  }

  function TouchAll<V>(values: map<string, seq<V>>, keys: seq<string>): (r: map<string, seq<V>>)
    ensures forall k :: k in r <==> k in values || k in keys
    ensures forall j :: Lookup(r, j) == Lookup(values, j)
    decreases |keys|
  {
    if keys == [] then values
    else Touch(TouchAll(values, keys[..|keys| - 1]), keys[|keys| - 1])
  }

  /** `values[k].append(v)`. */
  function Append<V>(values: map<string, seq<V>>, k: string, v: V): map<string, seq<V>> {
    values[k := Lookup(values, k) + [v]]
  }

  /** The lists a sequence of claims builds, appending one value per claim. */
  function GroupBy<V>(claims: seq<(string, V)>): (r: map<string, seq<V>>)
    ensures forall k :: k in r ==> |r[k]| > 0
    decreases |claims|
  {
    if claims == [] then map[]
    else
      var last := claims[|claims| - 1];
      Append(GroupBy(claims[..|claims| - 1]), last.0, last.1)
  }

  /** The values claimed for `k`, in claim order. */
  function ValuesFor<V>(claims: seq<(string, V)>, k: string): seq<V>
    decreases |claims|
  {
    if claims == [] then []
    else
      var last := claims[|claims| - 1];
      ValuesFor(claims[..|claims| - 1], k) + (if last.0 == k then [last.1] else [])
  }

  /** The list of each attribute holds exactly the values claimed for it, in
      line order, and an attribute has a list iff some line was claimed for it. */
  lemma {:induction false} GroupByIsFilter<V>(claims: seq<(string, V)>)
    ensures forall k :: Lookup(GroupBy(claims), k) == ValuesFor(claims, k)
    ensures GroupBy(claims).Keys == set i | 0 <= i < |claims| :: claims[i].0
    decreases |claims|
  {
    if claims != [] {
      var init := claims[..|claims| - 1];
      GroupByIsFilter(init);
      var s0 := set i | 0 <= i < |init| :: init[i].0;
      var s1 := set i | 0 <= i < |claims| :: claims[i].0;
      assert s1 == s0 + {claims[|claims| - 1].0} by {
        forall x | x in s1 ensures x in s0 + {claims[|claims| - 1].0} {
          var i :| 0 <= i < |claims| && claims[i].0 == x;
          if i < |init| { assert init[i] == claims[i]; }
        }
        forall x | x in s0 ensures x in s1 {
          var i :| 0 <= i < |init| && init[i].0 == x;
          assert claims[i] == init[i];
        }
      }
    }
  }

  /** When every claim is for attribute `k`, its list holds one value per claim. */
  lemma {:induction false} ValuesForAll<V>(claims: seq<(string, V)>, k: string)
    requires forall i :: 0 <= i < |claims| ==> claims[i].0 == k
    ensures |ValuesFor(claims, k)| == |claims|
    decreases |claims|
  {
    if claims != [] {
      ValuesForAll(claims[..|claims| - 1], k);
    }
  }

  /** Offers one line to the patterns in table order; the first that matches claims it. */
  method ClaimLine(patterns: seq<Pattern>, line: string) returns (claim: Option<(string, Number)>)
    ensures claim == Claim(patterns, line)
  {
    var j := 0;
    while j < |patterns|
      invariant 0 <= j <= |patterns|
      invariant forall q :: 0 <= q < j ==> patterns[q].search(line).None?
    {
      var found := patterns[j].search(line);
      if found.Some? {
        return Some((patterns[j].name, found.value));
      }
      j := j + 1;
    }
    return None;
  }

  /**
   * The top-down scan of an iterative search log: each line (before the first
   * sentinel when `stopAtSentinel`) is offered to the patterns in table order
   * and the first that matches appends its value to its attribute's list.
   */
  method CollectIterative(lines: seq<string>, patterns: seq<Pattern>, stopAtSentinel: bool)
      returns (values: map<string, seq<Number>>)
    ensures values == GroupBy(Claims(ScannedLines(lines, stopAtSentinel), patterns))
  {
    values := map[];
    var i := 0;
    while i < |lines|
      invariant 0 <= i <= |lines|
      invariant stopAtSentinel ==> forall j :: 0 <= j < i ==> lines[j] != Sentinel
      invariant values == GroupBy(Claims(lines[..i], patterns))
    {
      var line := lines[i];
      if stopAtSentinel && line == Sentinel {
        break;
      }
      assert lines[..i + 1][..i] == lines[..i];
      var claim := ClaimLine(patterns, line);
      if claim.Some? {
        values := Append(values, claim.value.0, claim.value.1);
      }
      i := i + 1;
    }
    assert lines[..|lines|] == lines;
  }

  // ---------------------------------------------------------------------------
  // The surplus search time

  /** The lists after the surplus check: reading `search_time` and
      `expansions` gives both a list, and when `search_time` has more values
      its last one (the cumulative time printed after the last iteration) is
      dropped. No other list changes. */
  function Trimmed(values: map<string, seq<Number>>): (r: map<string, seq<Number>>)
    ensures r.Keys == values.Keys + {"search_time", "expansions"}
    ensures forall k :: k != "search_time" ==> Lookup(r, k) == Lookup(values, k)
    ensures var times := Lookup(values, "search_time");
      Lookup(r, "search_time") ==
        if |times| > |Lookup(values, "expansions")| then times[..|times| - 1] else times
    ensures |Lookup(values, "search_time")| <= |Lookup(values, "expansions")| + 1 ==>
      |Lookup(r, "search_time")| <= |Lookup(r, "expansions")|
  {
    var touched := Touch(Touch(values, "search_time"), "expansions");
    var times := touched["search_time"];
    if |times| > |touched["expansions"]| then touched["search_time" := times[..|times| - 1]]
    else touched
  }

  /** `if len(values['search_time']) > len(values['expansions']): values['search_time'].pop()`. */
  method PopSurplusSearchTime(values: map<string, seq<Number>>) returns (r: map<string, seq<Number>>)
    ensures r == Trimmed(values)
  {
    r := Touch(values, "search_time");
    r := Touch(r, "expansions");
    if |r["search_time"]| > |r["expansions"]| {
      var times := r["search_time"];
      r := r["search_time" := times[..|times| - 1]];
    }
  }

  // ---------------------------------------------------------------------------
  // Checking and storing the lists

  /** `len(set(len(x) for x in lists)) == 1`. */
  predicate SameLength<V>(lists: seq<seq<V>>) {
    var lengths := set i | 0 <= i < |lists| :: |lists[i]|;
    |lengths| == 1
  }

  /** The lists of a group have one common length iff there is at least one
      list and any two have the same length. */
  lemma SameLengthIff<V>(lists: seq<seq<V>>)
    ensures SameLength(lists) <==>
      |lists| > 0 && forall i, j :: 0 <= i < |lists| && 0 <= j < |lists| ==> |lists[i]| == |lists[j]|
  {
    var lengths := set i | 0 <= i < |lists| :: |lists[i]|;
    if |lists| > 0 && forall i, j :: 0 <= i < |lists| && 0 <= j < |lists| ==> |lists[i]| == |lists[j]| {
      assert lengths == {|lists[0]|} by {
        forall n | n in lengths ensures n == |lists[0]| {
          var i :| 0 <= i < |lists| && |lists[i]| == n;
        }
        assert |lists[0]| in lengths;
      }
    }
    if SameLength(lists) {
      var n :| n in lengths;
      assert lengths == {n} by {
        forall m | m in lengths ensures m == n {
          if m != n {
            assert {m, n} <= lengths;
            assert |{m, n}| == 2;
            SubsetCard({m, n}, lengths);
          }
        }
      }
      assert |lists| > 0 by {
        var i :| 0 <= i < |lists| && |lists[i]| == n;
      }
      forall i, j | 0 <= i < |lists| && 0 <= j < |lists| ensures |lists[i]| == |lists[j]| {
        assert |lists[i]| in lengths && |lists[j]| in lengths;
      }
    }
  }

  lemma SubsetCard<T>(a: set<T>, b: set<T>)
    requires a <= b
    ensures |a| <= |b|
  {
    assert b == a + (b - a);
  }

  /** The lists of the attributes of a group, reading them as the source does. */
  function GroupLists<V>(values: map<string, seq<V>>, group: seq<string>): (r: seq<seq<V>>)
    ensures |r| == |group| && forall i :: 0 <= i < |group| ==> r[i] == Lookup(values, group[i])
  {
    seq(|group|, i requires 0 <= i < |group| => Lookup(values, group[i]))
  }

  /** Reading lists does not change them. */
  lemma GroupListsTouchAll<V>(values: map<string, seq<V>>, keys: seq<string>, group: seq<string>)
    ensures GroupLists(TouchAll(values, keys), group) == GroupLists(values, group)
  {
  }

  /** The lists of a group all have one length; reading them gives every
      attribute of the group a list. */
  method CheckGroup(values: map<string, seq<Number>>, group: seq<string>)
      returns (same: bool, touched: map<string, seq<Number>>)
    ensures same == SameLength(GroupLists(values, group))
    ensures touched == TouchAll(values, group)
  {
    touched := TouchAll(values, group);
    var lists := GroupLists(touched, group);
    assert lists == GroupLists(values, group);
    same := SameLength(lists);
  }

  /** The key a list of values is stored under. */
  function AllKey(name: string): (k: string)
    ensures EndsWith(k, "_all") && k[..|k| - 4] == name
  {
    var k := name + "_all";
    assert k[..|k| - 4] == name;
    k
  }

  /** `k` is the `_all` key of one of the collected attributes. */
  ghost predicate IsAllKeyOf<V>(k: string, values: map<string, seq<V>>) {
    exists n :: n in values && AllKey(n) == k
  }

  lemma AllKeyInjective(a: string, b: string)
    ensures AllKey(a) == AllKey(b) ==> a == b
  {
  }

  /** Index of the first smallest number: what Python's `min` returns. */
  function MinIndex(s: seq<Number>): (k: nat)
    requires |s| > 0
    ensures k < |s|
    ensures forall i :: 0 <= i < |s| ==> s[k].Real() <= s[i].Real()
    ensures forall i :: 0 <= i < k ==> s[k].Real() < s[i].Real()
    decreases |s|
  {
    if |s| == 1 then 0
    else
      var k := MinIndex(s[..|s| - 1]);
      if s[|s| - 1].Real() < s[k].Real() then |s| - 1 else k
  }

  /** Every collected list is stored under its `_all` key. */
  ghost predicate ListsStored(r: Props, values: map<string, seq<Number>>) {
    forall n :: n in values ==> AllKey(n) in r && r[AllKey(n)] == Numbers(values[n])
  }

  /** Every key that is not the `_all` key of a collected attribute is as before. */
  ghost predicate KeptOutsideLists(m: Props, r: Props, values: map<string, seq<Number>>) {
    forall k :: !IsAllKeyOf(k, values) ==> SameAt(m, r, k)
  }

  /** The part of `values` for the given attributes. */
  function Restrict(values: map<string, seq<Number>>, keys: set<string>): map<string, seq<Number>> {
    map n | n in values && n in keys :: values[n]
  }

  /** Storing one more list under its `_all` key keeps the others. */
  lemma StoreOneList(m: Props, r: Props, values: map<string, seq<Number>>, n: string, x: seq<Number>)
    requires n !in values
    requires ListsStored(r, values) && KeptOutsideLists(m, r, values)
    ensures ListsStored(r[AllKey(n) := Numbers(x)], values[n := x])
    ensures KeptOutsideLists(m, r[AllKey(n) := Numbers(x)], values[n := x])
  {
    var r' := r[AllKey(n) := Numbers(x)];
    var grown := values[n := x];
    forall n' | n' in grown ensures AllKey(n') in r' && r'[AllKey(n')] == Numbers(grown[n']) {
      AllKeyInjective(n, n');
    }
    forall k | !IsAllKeyOf(k, grown) ensures SameAt(m, r', k) {
      assert n in grown;
      assert !IsAllKeyOf(k, values) by {
        forall n' | n' in values ensures AllKey(n') != k {
          assert n' in grown;
        }
      }
    }
  }

  /** `attr` holds the first smallest value of its non-empty list (what
      Python's `min` returns), or is as before when the list is empty. */
  predicate MinStored(m: Props, r: Props, values: map<string, seq<Number>>, attr: string) {
    var items := Lookup(values, attr);
    if items != [] then attr in r && r[attr] == Num(items[MinIndex(items)])
    else SameAt(m, r, attr)
  }

  /** The attributes whose minimum is stored as the run's value. */
  const MinimumAttributes := ["cost", "plan_length"]

  lemma MinimumAttributesAreNotAllKeys(n: string)
    ensures AllKey(n) != "cost" && AllKey(n) != "plan_length"
  {
    assert !EndsWith("cost", "_all");
    assert !EndsWith("plan_length", "_all");
  }

  /** Every key other than the `_all` keys and the minimum attributes is as before. */
  ghost predicate OthersKept(m: Props, r: Props, values: map<string, seq<Number>>) {
    forall k :: k != "cost" && k != "plan_length" && !IsAllKeyOf(k, values) ==> SameAt(m, r, k)
  }

  /** The properties `r` after the collected lists were stored into `m`: each
      list under its `_all` key, the minimum cost and plan length from their
      non-empty lists, and every other key as before. */
  ghost predicate IterativeStored(m: Props, r: Props, values: map<string, seq<Number>>) {
    ListsStored(r, values)
    && MinStored(m, r, values, "cost") && MinStored(m, r, values, "plan_length")
    && OthersKept(m, r, values)
  }

  /** Stores each collected list under its `_all` key. */
  method StoreLists(values: map<string, seq<Number>>, props: Properties)
    modifies props
    ensures ListsStored(props.entries, values)
    ensures KeptOutsideLists(old(props.entries), props.entries, values)
    ensures props.unexplainedErrors == old(props.unexplainedErrors)
  {
    ghost var m := props.entries;
    var remaining := values.Keys;
    assert Restrict(values, values.Keys - remaining) == map[];
    while remaining != {}
      invariant remaining <= values.Keys
      invariant props.unexplainedErrors == old(props.unexplainedErrors)
      invariant ListsStored(props.entries, Restrict(values, values.Keys - remaining))
      invariant KeptOutsideLists(m, props.entries, Restrict(values, values.Keys - remaining))
      decreases remaining
    {
      var name :| name in remaining;
      ghost var done := Restrict(values, values.Keys - remaining);
      StoreOneList(m, props.entries, done, name, values[name]);
      props.entries := props.entries[AllKey(name) := Numbers(values[name])];
      remaining := remaining - {name};
      assert done[name := values[name]] == Restrict(values, values.Keys - remaining);
    }
    assert Restrict(values, values.Keys - remaining) == values;
  }

  /** Stores the first smallest value of the list collected for `attr`, if any. */
  method StoreMinimum(values: map<string, seq<Number>>, attr: string, props: Properties)
    modifies props
    ensures MinStored(old(props.entries), props.entries, values, attr)
    ensures forall k :: k != attr ==> SameAt(old(props.entries), props.entries, k)
    ensures props.unexplainedErrors == old(props.unexplainedErrors)
  {
    var items := Lookup(values, attr);
    if items != [] {
      var k := MinIndex(items);
      props.entries := props.entries[attr := Num(items[k])];
    }
  }

  /** Stores each collected list under its `_all` key, then the minimum cost
      and plan length of the non-empty lists. */
  method StoreIterative(values: map<string, seq<Number>>, props: Properties)
    modifies props
    ensures IterativeStored(old(props.entries), props.entries, values)
    ensures props.unexplainedErrors == old(props.unexplainedErrors)
  {
    ghost var m := props.entries;
    StoreLists(values, props);
    ghost var lists := props.entries;
    forall n | n in values ensures AllKey(n) != "cost" && AllKey(n) != "plan_length" {
      MinimumAttributesAreNotAllKeys(n);
    }
    assert SameAt(m, lists, "cost") && SameAt(m, lists, "plan_length");
    StoreMinimum(values, MinimumAttributes[0], props);
    ghost var withCost := props.entries;
    StoreMinimum(values, MinimumAttributes[1], props);
    assert SameAt(lists, withCost, "plan_length");
    assert SameAt(withCost, props.entries, "cost");
    assert ListsStored(props.entries, values) by {
      forall n | n in values ensures AllKey(n) in props.entries && props.entries[AllKey(n)] == Numbers(values[n]) {
        assert SameAt(lists, withCost, AllKey(n)) && SameAt(withCost, props.entries, AllKey(n));
      }
    }
    assert OthersKept(m, props.entries, values) by {
      forall k | k != "cost" && k != "plan_length" && !IsAllKeyOf(k, values) ensures SameAt(m, props.entries, k) {
        assert SameAt(lists, withCost, k) && SameAt(withCost, props.entries, k);
      }
    }
  }

  // ---------------------------------------------------------------------------
  // Bottom-up scans

  /** The lines below the last sentinel (all lines when there is none). */
  function AfterLastSentinel(lines: seq<string>): (r: seq<string>)
    ensures |r| <= |lines| && r == lines[|lines| - |r|..]
    ensures forall i :: 0 <= i < |r| ==> r[i] != Sentinel
    ensures |r| < |lines| ==> lines[|lines| - |r| - 1] == Sentinel
    decreases |lines|
  {
    if lines == [] || lines[|lines| - 1] == Sentinel then []
    else
      var init := AfterLastSentinel(lines[..|lines| - 1]);
      init + [lines[|lines| - 1]]
  }

  /** A suffix without sentinels that starts the file or follows a sentinel is
      the part below the last sentinel. */
  lemma AfterLastSentinelAt(lines: seq<string>, i: nat)
    requires i <= |lines|
    requires forall j :: i <= j < |lines| ==> lines[j] != Sentinel
    requires i > 0 ==> lines[i - 1] == Sentinel
    ensures AfterLastSentinel(lines) == lines[i..]
  {
  }

  /** The first value `f` finds, scanning the lines top-down. */
  function FirstHit<T>(lines: seq<string>, f: string -> Option<T>): (r: Option<T>)
    ensures r.Some? ==> exists i :: (0 <= i < |lines| && f(lines[i]) == r
      && forall j :: 0 <= j < i ==> f(lines[j]).None?)
    ensures r.None? ==> forall i :: 0 <= i < |lines| ==> f(lines[i]).None?
    decreases |lines|
  {
    if lines == [] then None
    else if f(lines[0]).Some? then f(lines[0])
    else
      var r := FirstHit(lines[1..], f);
      assert forall i :: 1 <= i < |lines| ==> lines[i] == lines[1..][i - 1];
      r
  }

  /** The last value `f` finds, scanning the lines bottom-up. */
  function LastHit<T>(lines: seq<string>, f: string -> Option<T>): Option<T>
    decreases |lines|
  {
    if lines == [] then None
    else if f(lines[|lines| - 1]).Some? then f(lines[|lines| - 1])
    else LastHit(lines[..|lines| - 1], f)
  }

  /** `LastHit` is the value of the last line `f` finds a value in, and None
      when it finds none. */
  lemma {:induction false} LastHitIsLast<T>(lines: seq<string>, f: string -> Option<T>)
    ensures LastHit(lines, f).Some? ==> exists i :: (0 <= i < |lines| && f(lines[i]) == LastHit(lines, f)
      && forall j :: i < j < |lines| ==> f(lines[j]).None?)
    ensures LastHit(lines, f).None? ==> forall i :: 0 <= i < |lines| ==> f(lines[i]).None?
    decreases |lines|
  {
    if lines != [] && f(lines[|lines| - 1]).None? {
      var init := lines[..|lines| - 1];
      LastHitIsLast(init, f);
      if LastHit(init, f).Some? {
        var i :| 0 <= i < |init| && f(init[i]) == LastHit(init, f)
          && forall j :: i < j < |init| ==> f(init[j]).None?;
        assert f(lines[i]) == LastHit(lines, f);
      }
    }
  }

  /** Prepending a line changes the last hit only when there was none. */
  lemma {:induction false} LastHitPrepend<T>(x: string, lines: seq<string>, f: string -> Option<T>)
    ensures LastHit([x] + lines, f) == if LastHit(lines, f).Some? then LastHit(lines, f) else f(x)
    decreases |lines|
  {
    var xs := [x] + lines;
    if lines != [] {
      assert xs[..|xs| - 1] == [x] + lines[..|lines| - 1];
      assert xs[|xs| - 1] == lines[|lines| - 1];
      LastHitPrepend(x, lines[..|lines| - 1], f);
    } else {
      assert xs[..|xs| - 1] == [];
    }
  }

  /** Once the lines below `i` hold a hit, the lines above cannot change the last one. */
  lemma {:induction false} LastHitSuffix<T>(lines: seq<string>, i: nat, f: string -> Option<T>)
    requires i <= |lines|
    requires LastHit(lines[i..], f).Some?
    ensures LastHit(lines, f) == LastHit(lines[i..], f)
    decreases i
  {
    if i > 0 {
      assert lines[i - 1..] == [lines[i - 1]] + lines[i..];
      LastHitPrepend(lines[i - 1], lines[i..], f);
      LastHitSuffix(lines, i - 1, f);
    }
  }

  /** `name` holds the value found, or is as before when none was found. */
  predicate HitStored(m: Props, r: Props, name: string, hit: Option<Number>) {
    if hit.Some? then name in r && r[name] == Num(hit.value) else SameAt(m, r, name)
  }

  /** `props[name] = value` when a value was found. */
  function WithHit(m: Props, name: string, hit: Option<Number>): (r: Props)
    ensures HitStored(m, r, name, hit)
    ensures forall k :: k != name ==> SameAt(m, r, k)
  {
    match hit
    case None => m
    case Some(v) => m[name := Num(v)]
  }

  /** The properties after each pattern in turn stores the value `hit`
      finds for it. */
  function StoreHits(m: Props, patterns: seq<Pattern>, hit: Pattern -> Option<Number>): Props
    decreases |patterns|
  {
    if patterns == [] then m
    else
      var p := patterns[|patterns| - 1];
      WithHit(StoreHits(m, patterns[..|patterns| - 1], hit), p.name, hit(p))
  }

  /** With distinct names, each pattern's key holds its own hit, or is as
      before when the pattern has none. */
  lemma {:induction false} StoreHitsValueOf(m: Props, patterns: seq<Pattern>, hit: Pattern -> Option<Number>, i: nat)
    requires DistinctNames(patterns) && i < |patterns|
    ensures HitStored(m, StoreHits(m, patterns, hit), patterns[i].name, hit(patterns[i]))
    decreases |patterns|
  {
    var n := |patterns|;
    var init := patterns[..n - 1];
    var last := patterns[n - 1];
    var r0 := StoreHits(m, init, hit);
    DistinctNamesInit(patterns);
    if i < n - 1 {
      assert init[i] == patterns[i];
      StoreHitsValueOf(m, init, hit, i);
    } else {
      StoreHitsElsewhere(m, init, hit, last.name);
    }
  }

  /** Storing hits touches no key that is not the name of one of the patterns. */
  lemma {:induction false} StoreHitsElsewhere(m: Props, patterns: seq<Pattern>, hit: Pattern -> Option<Number>, k: string)
    requires forall i :: 0 <= i < |patterns| ==> patterns[i].name != k
    ensures SameAt(m, StoreHits(m, patterns, hit), k)
    decreases |patterns|
  {
    if patterns != [] {
      StoreHitsElsewhere(m, patterns[..|patterns| - 1], hit, k);
    }
  }

  /** The value of a pattern's first match below the last sentinel. */
  function CumulativeHit(lines: seq<string>, p: Pattern): Option<Number> {
    FirstHit(AfterLastSentinel(lines), p.search)
  }

  function CumulativeHits(lines: seq<string>): Pattern -> Option<Number> {
    p => CumulativeHit(lines, p)
  }

  /** The properties after the cumulative pass over the given patterns: each
      pattern writes the value of its first match below the last sentinel. */
  function CumulativeValues(m: Props, lines: seq<string>, patterns: seq<Pattern>): Props {
    StoreHits(m, patterns, CumulativeHits(lines))
  }

  /** With distinct attribute names, the cumulative pass sets each attribute
      that matches below the last sentinel to its first such value, overwriting
      any earlier value, and leaves it alone otherwise. */
  lemma CumulativeValueOf(m: Props, lines: seq<string>, patterns: seq<Pattern>, i: nat)
    requires DistinctNames(patterns) && i < |patterns|
    ensures HitStored(m, CumulativeValues(m, lines, patterns), patterns[i].name,
                      FirstHit(AfterLastSentinel(lines), patterns[i].search))
  {
    StoreHitsValueOf(m, patterns, CumulativeHits(lines), i);
  }

  /** Dropping the last pattern keeps the names distinct, and none of the
      others is named like the last one. */
  lemma DistinctNamesInit(ps: seq<Pattern>)
    requires DistinctNames(ps) && |ps| > 0
    ensures DistinctNames(ps[..|ps| - 1])
    ensures forall j :: 0 <= j < |ps| - 1 ==> ps[j].name != ps[|ps| - 1].name
  { }

  /** The cumulative pass touches no key that is not the name of one of its patterns. */
  lemma CumulativeValuesElsewhere(m: Props, lines: seq<string>, patterns: seq<Pattern>, k: string)
    requires forall i :: 0 <= i < |patterns| ==> patterns[i].name != k
    ensures SameAt(m, CumulativeValues(m, lines, patterns), k)
  {
    StoreHitsElsewhere(m, patterns, CumulativeHits(lines), k);
  }

  /** One pattern's bottom-up scan: every matching line below the last sentinel
      overwrites the attribute, so the match nearest the sentinel stays. */
  method ScanUpToSentinel(lines: seq<string>, p: Pattern, props: Properties)
    modifies props
    ensures props.entries == WithHit(old(props.entries), p.name, FirstHit(AfterLastSentinel(lines), p.search))
    ensures props.unexplainedErrors == old(props.unexplainedErrors)
  {
    var i := |lines|;
    while i > 0
      invariant 0 <= i <= |lines|
      invariant forall j :: i <= j < |lines| ==> lines[j] != Sentinel
      invariant props.entries == WithHit(old(props.entries), p.name, FirstHit(lines[i..], p.search))
      invariant props.unexplainedErrors == old(props.unexplainedErrors)
    {
      if lines[i - 1] == Sentinel {
        break;
      }
      i := i - 1;
      assert lines[i..][1..] == lines[i + 1..];
      var found := p.search(lines[i]);
      if found.Some? {
        props.entries := props.entries[p.name := Num(found.value)];
      }
    }
    AfterLastSentinelAt(lines, i);
  }

  /**
   * For each pattern in table order, scans the lines bottom-up until the last
   * sentinel, writing every matching value; the one left is the match nearest
   * the sentinel.
   */
  method CumulativePass(lines: seq<string>, patterns: seq<Pattern>, props: Properties)
    modifies props
    ensures props.entries == CumulativeValues(old(props.entries), lines, patterns)
    ensures props.unexplainedErrors == old(props.unexplainedErrors)
  {
    for k := 0 to |patterns|
      invariant props.entries == CumulativeValues(old(props.entries), lines, patterns[..k])
      invariant props.unexplainedErrors == old(props.unexplainedErrors)
    {
      ScanUpToSentinel(lines, patterns[k], props);
      assert patterns[..k + 1][..k] == patterns[..k];
    }
    assert patterns[..|patterns|] == patterns;
  }

  // ---------------------------------------------------------------------------
  // Time helpers

  /** `math.fsum`, modelled as the exact sum. */
  function Sum(items: seq<Number>): real
    decreases |items|
  {
    if items == [] then 0.0 else Sum(items[..|items| - 1]) + items[|items| - 1].Real()
  }

  /** What `set_search_time` can process without raising: when it gets as far
      as summing, the list is a list of numbers. */
  predicate FillSearchTimeDefined(m: Props) {
    "search_time" !in m && Truthy(Get(m, "search_time_all")) ==> Get(m, "search_time_all").Numbers?
  }

  /** `set_search_time`: a missing `search_time` becomes the sum of the
      non-empty `search_time_all` list; nothing else changes. */
  function FilledSearchTime(m: Props): (r: Props)
    requires FillSearchTimeDefined(m)
    ensures forall k :: k != "search_time" ==> SameAt(m, r, k)
    ensures "search_time" in m ==> r == m
    ensures "search_time" in r <==> "search_time" in m || Truthy(Get(m, "search_time_all"))
    ensures "search_time" !in m && "search_time" in r ==>
      r["search_time"] == Num(Float(Sum(m["search_time_all"].items)))
  {
    if "search_time" in m then m
    else
      var all := Get(m, "search_time_all");
      if Truthy(all) then m["search_time" := Num(Float(Sum(all.items)))] else m
  }

  /** `set_search_time`, run on a run's properties. */
  method SetSearchTime(props: Properties)
    requires FillSearchTimeDefined(props.entries)
    modifies props
    ensures props.entries == FilledSearchTime(old(props.entries))
    ensures props.unexplainedErrors == old(props.unexplainedErrors)
  {
    if "search_time" in props.entries {
      return;
    }
    var all := Get(props.entries, "search_time_all");
    if Truthy(all) {
      props.entries := props.entries["search_time" := Num(Float(Sum(all.items)))];
    }
  }

  /** Python 2's `max(v, floor)` for a float `floor`: `floor` only when it is
      larger; numbers (and booleans) compare by value and order below every
      other kind of value. */
  function AtLeast(v: Value, floor: real): (r: Value)
    ensures v.Num? ==> r.Num? && r.n.Real() >= floor
    ensures v.Num? && v.n.Real() >= floor ==> r == v
    ensures v.Num? && v.n.Real() < floor ==> r == Num(Float(floor))
    ensures !v.Num? && !v.Bool? ==> r == v
  {
    match v
    case Num(n) => if floor > n.Real() then Num(Float(floor)) else v
    case Bool(b) => if floor > (if b then 1.0 else 0.0) then Num(Float(floor)) else v
    case _ => v
  }

  /** The attributes that are raised to a minimum time. */
  const TimeAttributes := ["search_time", "total_time"]

  /** A stored time after `check_min_values`: None stays None, any other value
      is `max(value, floor)`. */
  function RaiseValue(v: Value, floor: real): (r: Value)
    ensures v == Null ==> r == Null
    ensures v.Num? ==> r.Num? && r.n.Real() >= floor
    ensures v.Num? && v.n.Real() >= floor ==> r == v
    ensures !v.Num? && !v.Bool? ==> r == v
  {
    if v == Null then v else AtLeast(v, floor)
  }

  /** Raising a time twice raises it once. */
  lemma RaiseValueIdempotent(v: Value, floor: real)
    ensures RaiseValue(RaiseValue(v, floor), floor) == RaiseValue(v, floor)
  {
  }

  /** Raises the given attributes to at least `floor` where they are present;
      every other key, and every absent attribute, is as before. */
  function RaisedTimes(m: Props, attrs: seq<string>, floor: real): (r: Props)
    ensures r.Keys == m.Keys
    ensures forall k :: k in m ==> r[k] == (if k in attrs then RaiseValue(m[k], floor) else m[k])
    decreases |attrs|
  {
    if attrs == [] then m
    else
      var init := attrs[..|attrs| - 1];
      var r0 := RaisedTimes(m, init, floor);
      var a := attrs[|attrs| - 1];
      assert forall k :: k in attrs <==> k in init || k == a;
      var v := Get(r0, a);
      if v != Null then
        RaiseValueIdempotent(m[a], floor);
        r0[a := AtLeast(v, floor)]
      else r0
  }

  /** `check_min_values`: raises the present times to at least `floor`. */
  method RaiseTimesToFloor(props: Properties, floor: real)
    modifies props
    ensures props.entries == RaisedTimes(old(props.entries), TimeAttributes, floor)
    ensures props.unexplainedErrors == old(props.unexplainedErrors)
  {
    for k := 0 to |TimeAttributes|
      invariant props.entries == RaisedTimes(old(props.entries), TimeAttributes[..k], floor)
      invariant props.unexplainedErrors == old(props.unexplainedErrors)
    {
      var time := TimeAttributes[k];
      var sec := Get(props.entries, time);
      if sec != Null {
        props.entries := props.entries[time := AtLeast(sec, floor)];
      }
      assert TimeAttributes[..k + 1][..k] == TimeAttributes[..k];
    }
    assert TimeAttributes[..|TimeAttributes|] == TimeAttributes;
  }
}
