/**
 * The preprocess parser's own steps: the sanity check on a finished run,
 * the translator timestamps, the variable counts read from a task file
 * and the mutex-group counts read from `all.groups`.
 *
 * The text a step searches is given as its list of lines (the content
 * split at `'\n'`). The two regular expressions that are not line-based
 * are given as what they find: the timestamp matcher as a function of one
 * line, and the variables block as the lines between the variable count
 * and the last `end_variables`.
 */
module PreprocessParser {
  import opened Wrappers
  import opened Text
  import opened RunProps
  import opened Collector

  // ---------------------------------------------------------------------
  // check

  const TranslatorWithoutPreprocessor := "Translator error without preprocessor error"

  /** `check(props)`: a translator error must come with a preprocessor error,
      and a run with a cost must have a search time. The first assertion that
      fails decides the message; the second carries none. */
  function Check(m: Props): (o: Outcome)
    ensures o == Fail(TranslatorWithoutPreprocessor)
      <==> EqualsInt(Get(m, "translate_error"), 1) && !EqualsInt(Get(m, "preprocess_error"), 1)
    ensures o == Fail("")
      <==> ((EqualsInt(Get(m, "translate_error"), 1) ==> EqualsInt(Get(m, "preprocess_error"), 1))
        && Get(m, "cost") != Null && Get(m, "search_time") == Null)
    ensures o.Pass? || o == Fail(TranslatorWithoutPreprocessor) || o == Fail("")
  {
    if EqualsInt(Get(m, "translate_error"), 1) && !EqualsInt(Get(m, "preprocess_error"), 1) then
      Fail(TranslatorWithoutPreprocessor)
    else if Get(m, "cost") != Null && Get(m, "search_time") == Null then
      Fail("")
    else
      Pass
  }

  /** The check passes exactly when both implications hold. */
  lemma CheckPassesIff(m: Props)
    ensures Check(m) == Pass
      <==> ((EqualsInt(Get(m, "translate_error"), 1) ==> EqualsInt(Get(m, "preprocess_error"), 1))
        && (Get(m, "cost") != Null ==> Get(m, "search_time") != Null))
  {
  }

  // ---------------------------------------------------------------------
  // parse_translator_timestamps

  const TimePrefix := "translator_time_"

  /** A section name lower-cased, with spaces turned into underscores. */
  function Normalised(section: string): (r: string)
    ensures |r| == |section|
    ensures forall i :: 0 <= i < |section| ==>
      r[i] == (if section[i] == ' ' then '_' else LowerChar(section[i]))
  {
    ReplaceChar(Lower(section), ' ', '_')
  }

  /** The key a timed section is stored under. */
  function SectionKey(section: string): (k: string)
    ensures StartsWith(k, TimePrefix) && |k| == |TimePrefix| + |section|
  {
    TimePrefix + Normalised(section)
  }

  /** Normalised names hold neither spaces nor upper-case letters, so
      sections that differ only in those share a key. */
  lemma NormalisedHasNoSpaceNorCapital(section: string)
    ensures forall i :: 0 <= i < |Normalised(section)| ==>
      Normalised(section)[i] != ' ' && !('A' <= Normalised(section)[i] <= 'Z')
  {
    var r := Normalised(section);
    forall i | 0 <= i < |r|
      ensures r[i] != ' ' && !('A' <= r[i] <= 'Z')
    {
      assert r[i] == (if section[i] == ' ' then '_' else LowerChar(section[i]));
    }
  }

  lemma SectionKeyCollision()
    ensures SectionKey("Writing output") == SectionKey("writing_output")
  {
    var a := Normalised("Writing output");
    var b := Normalised("writing_output");
    forall i | 0 <= i < |a|
      ensures a[i] == b[i]
    {
      assert a[i] == (if "Writing output"[i] == ' ' then '_' else LowerChar("Writing output"[i]));
      assert b[i] == (if "writing_output"[i] == ' ' then '_' else LowerChar("writing_output"[i]));
    }
    assert a == b;
  }

  /** The number of lines before the first one starting with `Done!`. */
  function DoneLimit(lines: seq<string>): (n: nat)
    ensures n <= |lines|
    ensures forall i :: 0 <= i < n ==> !StartsWith(lines[i], "Done!")
    ensures n < |lines| ==> StartsWith(lines[n], "Done!")
    decreases |lines|
  {
    if lines == [] || StartsWith(lines[0], "Done!") then 0
    else
      var n := 1 + DoneLimit(lines[1..]);
      assert forall i :: 1 <= i < |lines| ==> lines[i] == lines[1..][i - 1];
      n
  }

  /** The properties after storing the time of every line `timestamp`
      recognises, top-down, later lines overwriting earlier ones.
      `timestamp` yields the section name and the CPU seconds. */
  function Timestamps(m: Props, lines: seq<string>, timestamp: string -> Option<(string, real)>): (r: Props)
    ensures m.Keys <= r.Keys
    ensures forall k :: k in r && k !in m ==> StartsWith(k, TimePrefix)
    decreases |lines|
  {
    if lines == [] then m
    else
      var before := Timestamps(m, lines[..|lines| - 1], timestamp);
      match timestamp(lines[|lines| - 1])
      case None => before
      case Some(hit) => before[SectionKey(hit.0) := Num(Float(hit.1))]
  }

  /** The time a line gives for `key`, if it gives one. */
  function KeyedTime(timestamp: string -> Option<(string, real)>, key: string, line: string): Option<real> {
    match timestamp(line)
    case None => None
    case Some(hit) => if SectionKey(hit.0) == key then Some(hit.1) else None
  }

  /** Each key holds the time of the last line for its section; a key no line
      names keeps its old value (or stays absent). */
  lemma {:induction false} TimestampsLastWins(m: Props, lines: seq<string>,
      timestamp: string -> Option<(string, real)>, key: string)
    ensures var r := Timestamps(m, lines, timestamp);
      match LastHit(lines, line => KeyedTime(timestamp, key, line))
      case Some(t) => key in r && r[key] == Num(Float(t))
      case None => SameAt(m, r, key)
    decreases |lines|
  {
    if lines != [] {
      TimestampsLastWins(m, lines[..|lines| - 1], timestamp, key);
    }
  }

  /** Only `translator_time_` keys change. */
  lemma TimestampsOnlyTimeKeys(m: Props, lines: seq<string>,
      timestamp: string -> Option<(string, real)>, key: string)
    requires !StartsWith(key, TimePrefix)
    ensures SameAt(m, Timestamps(m, lines, timestamp), key)
  {
    var f := line => KeyedTime(timestamp, key, line);
    TimestampsLastWins(m, lines, timestamp, key);
    LastHitIsLast(lines, f);
  }

  /** `parse_translator_timestamps`: scans the lines up to the first one
      starting with `Done!` and stores the CPU time of each timed section. */
  method ParseTranslatorTimestamps(lines: seq<string>, timestamp: string -> Option<(string, real)>,
      props: Properties)
    modifies props
    ensures props.entries == Timestamps(old(props.entries), lines[..DoneLimit(lines)], timestamp)
    ensures props.unexplainedErrors == old(props.unexplainedErrors)
  {
    var i := 0;
    while i < |lines|
      invariant i <= |lines|
      invariant forall j :: 0 <= j < i ==> !StartsWith(lines[j], "Done!")
      invariant props.entries == Timestamps(old(props.entries), lines[..i], timestamp)
      invariant props.unexplainedErrors == old(props.unexplainedErrors)
    {
      if StartsWith(lines[i], "Done!") {
        break;
      }
      var hit := timestamp(lines[i]);
      if hit.Some? {
        props.entries := props.entries[SectionKey(hit.value.0) := Num(Float(hit.value.1))];
      }
      assert lines[..i + 1][..i] == lines[..i];
      i := i + 1;
    }
    assert i == DoneLimit(lines);
  }

  // ---------------------------------------------------------------------
  // _get_var_descriptions, _get_derived_vars, _get_facts

  /** One line of the variables block: name, domain size and axiom layer
      (-1 for a variable no axiom derives). */
  datatype VarDescription = VarDescription(name: string, size: int, layer: int)

  /** `name, size, layer = line.split()` followed by `int(size)`, `int(layer)`;
      None where Python raises. */
  function ParseVarLine(line: string): (r: Option<VarDescription>)
    ensures r.Some? <==> |Words(line)| == 3 && ParseInt(Words(line)[1]).Some? && ParseInt(Words(line)[2]).Some?
    ensures r.Some? ==>
      (r.value.name == Words(line)[0] && |r.value.name| > 0
       && Some(r.value.size) == ParseInt(Words(line)[1]) && Some(r.value.layer) == ParseInt(Words(line)[2]))
  {
    var words := Words(line);
    if |words| == 3 && ParseInt(words[1]).Some? && ParseInt(words[2]).Some? then
      Some(VarDescription(words[0], ParseInt(words[1]).value, ParseInt(words[2]).value))
    else None
  }

  const MalformedVariable := "malformed variable line"

  function ParseVarLines(lines: seq<string>): (r: Result<seq<VarDescription>>)
    ensures r.Success? <==> forall i :: 0 <= i < |lines| ==> ParseVarLine(lines[i]).Some?
    ensures r.Success? ==> |r.value| == |lines|
    ensures r.Success? ==> forall i :: 0 <= i < |lines| ==> ParseVarLine(lines[i]) == Some(r.value[i])
    decreases |lines|
  {
    if lines == [] then Success([])
    else
      var head := ParseVarLine(lines[0]);
      if head.None? then Failure(MalformedVariable)
      else
        var rest := ParseVarLines(lines[1..]);
        ParseVarLinesCons(lines, head, rest);
        if rest.Failure? then rest
        else Success([head.value] + rest.value)
  }

  /** The step of `ParseVarLines`: a list parses iff its head and its tail do,
      and a parsed list is the head's triple followed by the tail's. */
  lemma ParseVarLinesCons(lines: seq<string>, head: Option<VarDescription>, rest: Result<seq<VarDescription>>)
    requires |lines| > 0 && head == ParseVarLine(lines[0]) && head.Some?
    requires rest.Success? <==> forall i :: 0 <= i < |lines[1..]| ==> ParseVarLine(lines[1..][i]).Some?
    requires rest.Success? ==> |rest.value| == |lines[1..]|
    requires rest.Success? ==> forall i :: 0 <= i < |lines[1..]| ==> ParseVarLine(lines[1..][i]) == Some(rest.value[i])
    ensures rest.Success? <==> forall i :: 0 <= i < |lines| ==> ParseVarLine(lines[i]).Some?
    ensures rest.Success? ==> forall i :: 0 <= i < |lines| ==>
      ParseVarLine(lines[i]) == Some(([head.value] + rest.value)[i])
  {
    assert forall i :: 1 <= i < |lines| ==> lines[i] == lines[1..][i - 1];
    if !rest.Success? {
      var k :| 0 <= k < |lines[1..]| && ParseVarLine(lines[1..][k]).None?;
      assert ParseVarLine(lines[k + 1]).None?;
    }
  }

  /** `_get_var_descriptions(content)`, given the lines of the variables block
      (None when the file has none). A missing block gives the empty list; a
      line that is not three words with two integers raises. */
  function VarDescriptions(block: Option<seq<string>>): (r: Result<seq<VarDescription>>)
    ensures block.None? ==> r == Success([])
    ensures block.Some? ==> r == ParseVarLines(block.value)
  {
    match block
    case None => Success([])
    case Some(lines) => ParseVarLines(lines)
  }

  /** A word without whitespace, followed by a space and more text, splits
      off as the first word. */
  lemma WordsOfWordThenRest(w: string, rest: string)
    requires |w| > 0 && forall i :: 0 <= i < |w| ==> !IsSpace(w[i])
    ensures Words(w + " " + rest) == [w] + Words(rest)
  {
    var s := w + " " + rest;
    assert s[|w|] == ' ';
    var n := WordLength(s);
    assert forall i :: 0 <= i < |w| ==> s[i] == w[i];
    assert n == |w|;
    assert s[..n] == w;
    assert s[n..] == " " + rest;
    assert (" " + rest)[1..] == rest;
  }

  lemma WordsOfWord(w: string)
    requires |w| > 0 && forall i :: 0 <= i < |w| ==> !IsSpace(w[i])
    ensures Words(w) == [w]
  {
    var n := WordLength(w);
    assert n == |w|;
    assert w[..n] == w;
    assert w[n..] == [];
  }

  lemma IntToStringIsWord(i: int)
    ensures |IntToString(i)| > 0
    ensures forall k :: 0 <= k < |IntToString(i)| ==> !IsSpace(IntToString(i)[k])
  {
    var s := IntToString(i);
    if i < 0 {
      var digits := NatToString(-i);
      forall k | 0 <= k < |s|
        ensures !IsSpace(s[k])
      {
        if k > 0 {
          assert s[k] == digits[k - 1];
        }
      }
    }
  }

  /** The line the translator writes for a variable, `name size layer`,
      parses back to that variable. */
  lemma ParseVarLineRoundTrip(v: VarDescription)
    requires |v.name| > 0 && forall i :: 0 <= i < |v.name| ==> !IsSpace(v.name[i])
    ensures ParseVarLine(v.name + " " + IntToString(v.size) + " " + IntToString(v.layer)) == Some(v)
  {
    var size := IntToString(v.size);
    var layer := IntToString(v.layer);
    IntToStringIsWord(v.size);
    IntToStringIsWord(v.layer);
    WordsOfWord(layer);
    WordsOfWordThenRest(size, layer);
    WordsOfWordThenRest(v.name, size + " " + layer);
    assert v.name + " " + size + " " + layer == v.name + " " + (size + " " + layer);
    ParseIntOfIntToString(v.size);
    ParseIntOfIntToString(v.layer);
  }

  /** The number of variables with an axiom layer of at least 0. */
  function CountDerived(vars: seq<VarDescription>): (n: nat)
    ensures n <= |vars|
    decreases |vars|
  {
    if vars == [] then 0
    else (if vars[0].layer >= 0 then 1 else 0) + CountDerived(vars[1..])
  }

  /** `_get_derived_vars`: None (not 0) when there are no variables. */
  function DerivedVars(vars: seq<VarDescription>): (r: Option<nat>)
    ensures r.None? <==> vars == []
  {
    if vars == [] then None else Some(CountDerived(vars))
  }

  /** Every variable is derived exactly when the count is the number of
      variables, and none is exactly when it is 0. */
  lemma {:induction false} CountDerivedExtremes(vars: seq<VarDescription>)
    ensures CountDerived(vars) == |vars| <==> forall i :: 0 <= i < |vars| ==> vars[i].layer >= 0
    ensures CountDerived(vars) == 0 <==> forall i :: 0 <= i < |vars| ==> vars[i].layer < 0
    decreases |vars|
  {
    if vars != [] {
      CountDerivedExtremes(vars[1..]);
      assert forall i :: 1 <= i < |vars| ==> vars[i] == vars[1..][i - 1];
    }
  }

  /** Counting derived variables distributes over concatenation. */
  lemma {:induction false} CountDerivedAppend(a: seq<VarDescription>, b: seq<VarDescription>)
    ensures CountDerived(a + b) == CountDerived(a) + CountDerived(b)
    decreases |a|
  {
    if a != [] {
      assert (a + b)[0] == a[0];
      assert (a + b)[1..] == a[1..] + b;
      CountDerivedAppend(a[1..], b);
    } else {
      assert a + b == b;
    }
  }

  /** The sum of the domain sizes. */
  function SumSizes(vars: seq<VarDescription>): int
    decreases |vars|
  {
    if vars == [] then 0 else vars[0].size + SumSizes(vars[1..])
  }

  /** `_get_facts`: None (not 0) when there are no variables. */
  function Facts(vars: seq<VarDescription>): (r: Option<int>)
    ensures r.None? <==> vars == []
  {
    if vars == [] then None else Some(SumSizes(vars))
  }

  /** Summing sizes distributes over concatenation. */
  lemma {:induction false} SumSizesAppend(a: seq<VarDescription>, b: seq<VarDescription>)
    ensures SumSizes(a + b) == SumSizes(a) + SumSizes(b)
    decreases |a|
  {
    if a != [] {
      assert (a + b)[0] == a[0];
      assert (a + b)[1..] == a[1..] + b;
      SumSizesAppend(a[1..], b);
    } else {
      assert a + b == b;
    }
  }

  /** With every domain non-empty there are at least as many facts as
      variables. */
  lemma {:induction false} FactsAtLeastVariables(vars: seq<VarDescription>)
    requires forall i :: 0 <= i < |vars| ==> vars[i].size >= 1
    ensures SumSizes(vars) >= |vars|
    decreases |vars|
  {
    if vars != [] {
      assert forall i :: 1 <= i < |vars| ==> vars[i] == vars[1..][i - 1];
      FactsAtLeastVariables(vars[1..]);
    }
  }

  // ---------------------------------------------------------------------
  // The write-if-absent steps

  const TranslatorDerivedVariables := "translator_derived_variables"
  const PreprocessorDerivedVariables := "preprocessor_derived_variables"
  const TranslatorFacts := "translator_facts"
  const PreprocessorFacts := "preprocessor_facts"
  const TranslatorMutexGroups := "translator_mutex_groups"
  const TranslatorTotalMutexGroupsSize := "translator_total_mutex_groups_size"

  /** `value` stored under `key` unless the key is already there. */
  function IfAbsent(m: Props, key: string, value: Value): (r: Props)
    ensures key in r
    ensures key in m ==> r == m
    ensures key !in m ==> r[key] == value
    ensures forall k :: k != key ==> SameAt(m, r, k)
  {
    if key in m then m else m[key := value]
  }

  /** A first write wins: a second write to the same key changes nothing. */
  lemma {:induction false} IfAbsentFirstWins(m: Props, key: string, v: Value, w: Value)
    ensures IfAbsent(IfAbsent(m, key, v), key, w) == IfAbsent(m, key, v)
  {
  }

  function OptionValue(o: Option<int>): (v: Value)
    ensures o.None? <==> v == Null
  {
    match o
    case None => Null
    case Some(n) => Num(Int(n))
  }

  /** What the variable counts are computed from. */
  datatype VarCount = DerivedCount | FactCount

  /** `_get_derived_vars(content)` or `_get_facts(content)` as the value
      stored: the error the block raises, or the count (None when the block
      is missing). */
  function CountValue(count: VarCount, block: Option<seq<string>>): (r: Result<Value>)
    ensures block.None? ==> r == Success(Null)
    ensures r.Failure? <==> VarDescriptions(block).Failure?
  {
    match VarDescriptions(block)
    case Failure(e) => Failure(e)
    case Success(vars) =>
      Success(OptionValue(if count == FactCount then Facts(vars) else DerivedVars(vars)))
  }

  /** A variables block of well-formed lines gives the count of derived
      variables or the sum of domain sizes. */
  lemma CountValueOfBlock(count: VarCount, lines: seq<string>, vars: seq<VarDescription>)
    requires |vars| == |lines| > 0
    requires forall i :: 0 <= i < |lines| ==> ParseVarLine(lines[i]) == Some(vars[i])
    ensures CountValue(count, Some(lines))
      == Success(Num(Int(if count == FactCount then SumSizes(vars) else CountDerived(vars))))
  {
    var r := ParseVarLines(lines);
    assert r.Success?;
    assert r.value == vars by {
      forall i | 0 <= i < |lines|
        ensures r.value[i] == vars[i]
      {
        assert ParseVarLine(lines[i]) == Some(r.value[i]);
      }
    }
  }

  /** The four keys the derived-variable and fact wrappers write. */
  predicate IsCountKey(key: string) {
    key == TranslatorDerivedVariables || key == PreprocessorDerivedVariables
    || key == TranslatorFacts || key == PreprocessorFacts
  }

  /** Which count a wrapper stores: the derived-variable wrappers count
      derived variables, the fact wrappers sum domain sizes. */
  function CountOf(key: string): (c: VarCount)
    requires IsCountKey(key)
    ensures c == FactCount <==> key == TranslatorFacts || key == PreprocessorFacts
  {
    if key == TranslatorFacts || key == PreprocessorFacts then FactCount else DerivedCount
  }

  /**
   * `translator_derived_vars`, `preprocessor_derived_vars`,
   * `translator_facts` and `preprocessor_facts`: the count that goes with
   * `key` is stored only when the key is absent. The error a malformed block
   * raises is raised (and returned here) only then, since the source
   * computes the count only then.
   */
  method StoreIfAbsent(key: string, block: Option<seq<string>>, props: Properties) returns (raised: Option<string>)
    requires IsCountKey(key)
    modifies props
    ensures key in old(props.entries) ==> raised.None? && props.entries == old(props.entries)
    ensures key !in old(props.entries) && CountValue(CountOf(key), block).Failure? ==>
      raised == Some(CountValue(CountOf(key), block).error) && props.entries == old(props.entries)
    ensures CountValue(CountOf(key), block).Success? ==>
      raised.None? && props.entries == IfAbsent(old(props.entries), key, CountValue(CountOf(key), block).value)
    ensures props.unexplainedErrors == old(props.unexplainedErrors)
  {
    raised := None;
    if key !in props.entries {
      match CountValue(CountOf(key), block)
      case Failure(e) =>
        raised := Some(e);
      case Success(v) =>
        props.entries := props.entries[key := v];
    }
  }

  // ---------------------------------------------------------------------
  // translator_mutex_groups, translator_mutex_groups_total_size

  /** Line `i` ends with `begin_groups` and the next line is a number. */
  predicate GroupCountAt(lines: seq<string>, i: int) {
    0 <= i && i + 1 < |lines| && EndsWith(lines[i], "begin_groups") && IsDigits(lines[i + 1])
  }

  /** The first match of `begin_groups\n(\d+)$`: the number on the line after
      the first `begin_groups` line that is followed by a line of digits. */
  function MutexGroupCount(lines: seq<string>): (r: Option<nat>)
    ensures r.None? <==> forall i :: 0 <= i < |lines| ==> !GroupCountAt(lines, i)
    ensures r.Some? ==> exists i :: (GroupCountAt(lines, i) && r.value == DigitsValue(lines[i + 1])
      && forall j :: 0 <= j < i ==> !GroupCountAt(lines, j))
    decreases |lines|
  {
    if |lines| < 2 then None
    else if GroupCountAt(lines, 0) then Some(DigitsValue(lines[1]))
    else
      var r := MutexGroupCount(lines[1..]);
      assert forall i :: 0 <= i < |lines| - 1 ==> (GroupCountAt(lines[1..], i) <==> GroupCountAt(lines, i + 1));
      if r.Some? then
        var i :| GroupCountAt(lines[1..], i) && r.value == DigitsValue(lines[1..][i + 1])
          && forall j :: 0 <= j < i ==> !GroupCountAt(lines[1..], j);
        assert GroupCountAt(lines, i + 1) && r.value == DigitsValue(lines[i + 2]);
        forall j | 1 <= j < i + 1
          ensures !GroupCountAt(lines, j)
        {
          assert !GroupCountAt(lines[1..], j - 1);
        }
        r
      else
        assert forall i :: 1 <= i < |lines| ==> !GroupCountAt(lines, i) by {
          forall i | 1 <= i < |lines|
            ensures !GroupCountAt(lines, i)
          {
            assert !GroupCountAt(lines[1..], i - 1);
          }
        }
        r
  }

  /** The properties after `translator_mutex_groups`. */
  function MutexGroupsStored(m: Props, lines: seq<string>): Props {
    match MutexGroupCount(lines)
    case None => m
    case Some(n) => IfAbsent(m, TranslatorMutexGroups, Num(Int(n)))
  }

  /** The mutex group count is written only when absent and found, and it is
      the number after the first `begin_groups` line. */
  lemma MutexGroupsStoredIff(m: Props, lines: seq<string>)
    ensures forall k :: k != TranslatorMutexGroups ==> SameAt(m, MutexGroupsStored(m, lines), k)
    ensures TranslatorMutexGroups in m ==> MutexGroupsStored(m, lines) == m
    ensures TranslatorMutexGroups !in m ==>
      (TranslatorMutexGroups in MutexGroupsStored(m, lines) <==> exists i :: GroupCountAt(lines, i))
    ensures TranslatorMutexGroups !in m && MutexGroupCount(lines).Some? ==>
      MutexGroupsStored(m, lines)[TranslatorMutexGroups] == Num(Int(MutexGroupCount(lines).value))
  {
  }

  /** The file layout with groups: the count follows `begin_groups`. */
  lemma MutexGroupCountExample()
    ensures MutexGroupCount(["begin_groups", "2", "group", "1", "var0 0 x"]) == Some(2)
  {
    var lines := ["begin_groups", "2", "group", "1", "var0 0 x"];
    assert GroupCountAt(lines, 0);
    assert lines[1] == "2";
    assert DigitsValue("2") == DigitsValue("") * 10 + DigitValue('2');
  }

  method StoreMutexGroups(lines: seq<string>, props: Properties)
    modifies props
    ensures props.entries == MutexGroupsStored(old(props.entries), lines)
    ensures props.unexplainedErrors == old(props.unexplainedErrors)
  {
    if TranslatorMutexGroups in props.entries {
      return;
    }
    var count := MutexGroupCount(lines);
    if count.Some? {
      props.entries := props.entries[TranslatorMutexGroups := Num(Int(count.value))];
    }
  }

  /** Line `i` ends with `group` and the next line starts with a digit: a
      match of `group\n(\d+)`. */
  predicate GroupSizeAt(lines: seq<string>, i: int) {
    0 <= i && i + 1 < |lines| && EndsWith(lines[i], "group") && LeadingDigits(lines[i + 1]) != []
  }

  function GroupSizeOf(line: string): nat {
    DigitsValue(LeadingDigits(line))
  }

  /** The numbers `findall(r'group\n(\d+)')` returns, in order. A match
      consumes only the digits at the start of the next line, and a `group`
      ending that line starts after them, so every such pair is found. */
  function GroupSizes(lines: seq<string>): (sizes: seq<nat>)
    ensures |sizes| <= |lines|
    decreases |lines|
  {
    if |lines| < 2 then []
    else (if GroupSizeAt(lines, 0) then [GroupSizeOf(lines[1])] else []) + GroupSizes(lines[1..])
  }

  function Total(sizes: seq<nat>): nat
    decreases |sizes|
  {
    if sizes == [] then 0 else sizes[0] + Total(sizes[1..])
  }

  /** The total is 0 exactly when every number following a `group` line is
      0, in particular when there is no `group` line. */
  lemma {:induction false} TotalGroupSizeZero(lines: seq<string>)
    ensures Total(GroupSizes(lines)) == 0
      <==> forall i :: 0 <= i < |lines| && GroupSizeAt(lines, i) ==> GroupSizeOf(lines[i + 1]) == 0
    decreases |lines|
  {
    if |lines| >= 2 {
      var rest := lines[1..];
      TotalGroupSizeZero(rest);
      assert forall i :: 0 <= i < |rest| ==> (GroupSizeAt(rest, i) <==> GroupSizeAt(lines, i + 1));
      assert forall i :: 0 <= i < |rest| ==> rest[i] == lines[i + 1];
      var head := if GroupSizeAt(lines, 0) then [GroupSizeOf(lines[1])] else [];
      TotalAppend(head, GroupSizes(rest));
      if forall i :: 0 <= i < |lines| && GroupSizeAt(lines, i) ==> GroupSizeOf(lines[i + 1]) == 0 {
        forall i | 0 <= i < |rest| && GroupSizeAt(rest, i)
          ensures GroupSizeOf(rest[i + 1]) == 0
        {
          assert GroupSizeAt(lines, i + 1);
        }
      } else {
        var i :| 0 <= i < |lines| && GroupSizeAt(lines, i) && GroupSizeOf(lines[i + 1]) != 0;
        if i > 0 {
          assert GroupSizeAt(rest, i - 1);
        }
      }
    }
  }

  lemma {:induction false} TotalAppend(a: seq<nat>, b: seq<nat>)
    ensures Total(a + b) == Total(a) + Total(b)
    decreases |a|
  {
    if a != [] {
      assert (a + b)[0] == a[0];
      assert (a + b)[1..] == a[1..] + b;
      TotalAppend(a[1..], b);
    } else {
      assert a + b == b;
    }
  }

  /** The properties after `translator_mutex_groups_total_size`. */
  function TotalSizeStored(m: Props, lines: seq<string>): Props {
    IfAbsent(m, TranslatorTotalMutexGroupsSize, Num(Int(Total(GroupSizes(lines)))))
  }

  method StoreTotalMutexGroupsSize(lines: seq<string>, props: Properties)
    modifies props
    ensures props.entries == TotalSizeStored(old(props.entries), lines)
    ensures props.unexplainedErrors == old(props.unexplainedErrors)
  {
    if TranslatorTotalMutexGroupsSize in props.entries {
      return;
    }
    props.entries := props.entries[TranslatorTotalMutexGroupsSize := Num(Int(Total(GroupSizes(lines))))];
  }
}
