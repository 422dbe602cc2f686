/**
 * The property map that every parser step reads and writes, with the
 * fragment of Python value semantics the steps rely on: `dict.get`,
 * truth values and `==` between numbers and booleans.
 */
module RunProps {

  /** A number as the parsers store it: a Python `int` or a `float`
      (floats are modelled as exact reals). */
  datatype Number = Int(i: int) | Float(f: real)
  {
    function Real(): real {
      match this
      case Int(i) => i as real
      case Float(f) => f
    }
  }

  /** The values that occur in a run's properties. */
  datatype Value =
    | Null                                  // None
    | Bool(b: bool)
    | Num(n: Number)
    | Str(s: string)
    | Numbers(items: seq<Number>)           // the `<name>_all` lists
    | HTable(groups: map<string, seq<int>>) // heuristic -> initial h values

  type Props = map<string, Value>

  /** Python's truth value. */
  predicate Truthy(v: Value) {
    match v
    case Null => false
    case Bool(b) => b
    case Num(n) => n.Real() != 0.0
    case Str(s) => s != ""
    case Numbers(items) => items != []
    case HTable(groups) => groups != map[]
  }

  /** `props.get(key)`: the stored value, or None when the key is absent. */
  function Get(m: Props, key: string): (v: Value)
    ensures key !in m ==> v == Null
    ensures key in m ==> v == m[key]
  {
    if key in m then m[key] else Null
  }

  /** Python's `v == n` for an integer literal `n`: numbers compare by
      value and `True == 1`, `False == 0`; every other value differs. */
  predicate EqualsInt(v: Value, n: int) {
    match v
    case Bool(b) => (if b then 1 else 0) == n
    case Num(x) => x.Real() == n as real
    case _ => false
  }

  /** The two maps agree on `key`: both lack it, or both hold the same value. */
  predicate SameAt(m1: Props, m2: Props, key: string) {
    (key in m1 <==> key in m2) && (key in m1 ==> m1[key] == m2[key])
  }

  /** A value Python can compare with a number and take the logarithm of. */
  predicate IsNumeric(v: Value) {
    v.Num?
  }

  /** `successful(run)` / `solved(run)`: `run['coverage'] or run['unsolvable']`.
      Python's `or` yields its first operand when that is truthy, so the
      `unsolvable` key is only looked up (and only required) otherwise. */
  function Successful(run: Props): (r: Value)
    requires "coverage" in run
    requires !Truthy(run["coverage"]) ==> "unsolvable" in run
    ensures Truthy(r) <==> Truthy(run["coverage"]) || ("unsolvable" in run && Truthy(run["unsolvable"]))
    ensures Truthy(run["coverage"]) ==> r == run["coverage"]
  {
    if Truthy(run["coverage"]) then run["coverage"] else run["unsolvable"]
  }

  /**
   * The properties of one run, updated in place by the parser steps.
   * `unexplainedErrors` is the list that `add_unexplained_error` appends to.
   */
  class Properties {
    var entries: Props
    var unexplainedErrors: seq<string>

    constructor (initial: Props)
      ensures entries == initial && unexplainedErrors == []
    {
      entries := initial;
      unexplainedErrors := [];
    }

    /** Records a problem with the run without stopping the parser. */
    method AddUnexplainedError(error: string)
      modifies this
      ensures entries == old(entries)
      ensures unexplainedErrors == old(unexplainedErrors) + [error]
    {
      unexplainedErrors := unexplainedErrors + [error];
    }
  }
}
