/**
 * The steps of an experiment: a `Step` runs its callable at most once,
 * and a sequence of steps is searched by name or 1-based number and
 * listed for the user.
 *
 * A critical log message ends the experiment (lab's logging handler exits
 * on it), so an operation that logs one is modelled as returning that
 * message and doing nothing afterwards.
 */
module Steps {
  import opened Wrappers
  import opened Text
  import opened RunProps

  /** An argument of a step, known by its `repr`. */
  datatype PyObject = PyObject(repr: string)

  /** What calling a step's function does with the step's arguments. */
  datatype FuncResult =
    | Returns(value: Value)
    | RaisesValueOrTypeError
    | RaisesOther(exception: string)

  /** A Python callable: its `__name__` (None for objects without one), the
      name of its class, and what it does when called. */
  datatype Callable = Callable(
    name: Option<string>,
    className: string,
    run: (seq<PyObject>, seq<(string, PyObject)>) -> FuncResult)

  /** What `Step.__call__` ends with. */
  datatype CallOutcome =
    | Returned(value: Value)        // a falsy return value, handed back
    | Failed(value: Value)          // a truthy return value: "An error occured in ..."
    | RunTwice                      // "You cannot run the same step more than once"
    | CouldNotRun(step: string)     // ValueError or TypeError: "Could not run step: <step>"
    | Propagated(exception: string) // any other exception leaves `__call__`

  /** `_funcname`: the callable's `__name__`, or its lower-cased class name
      when that is missing or empty. After a run `func` is None, whose class
      is `NoneType`. */
  function FuncName(func: Option<Callable>): (r: string)
    ensures func.None? ==> r == "nonetype"
    ensures func.Some? && func.value.name.Some? && func.value.name.value != "" ==> r == func.value.name.value
    ensures func.Some? && (func.value.name.None? || func.value.name.value == "") ==>
      r == Lower(func.value.className)
    ensures r == "" ==> func.Some? && func.value.className == ""
  {
    match func
    case None => "nonetype"
    case Some(f) => if f.name.Some? && f.name.value != "" then f.name.value else Lower(f.className)
  }

  function ArgTexts(args: seq<PyObject>): (r: seq<string>)
    ensures |r| == |args| && forall i :: 0 <= i < |args| ==> r[i] == args[i].repr
  {
    seq(|args|, i requires 0 <= i < |args| => args[i].repr)
  }

  function KwargTexts(kwargs: seq<(string, PyObject)>): (r: seq<string>)
    ensures |r| == |kwargs| && forall i :: 0 <= i < |kwargs| ==> r[i] == kwargs[i].0 + "=" + kwargs[i].1.repr
  {
    seq(|kwargs|, i requires 0 <= i < |kwargs| => kwargs[i].0 + "=" + kwargs[i].1.repr)
  }

  /** `Step.__str__`: the positional arguments, a separator only when there
      are keyword arguments too, and the keyword arguments in iteration order. */
  function StepText(funcName: string, args: seq<PyObject>, kwargs: seq<(string, PyObject)>): (r: string)
    ensures StartsWith(r, funcName + "(") && EndsWith(r, ")")
    ensures args == [] && kwargs == [] ==> r == funcName + "()"
  {
    funcName + "(" + Join(", ", ArgTexts(args))
      + (if |args| > 0 && |kwargs| > 0 then ", " else "")
      + Join(", ", KwargTexts(kwargs)) + ")"
  }

  /** The separator makes the text one comma-separated list of all the
      arguments, whichever of the two kinds are present. */
  lemma StepTextIsOneList(funcName: string, args: seq<PyObject>, kwargs: seq<(string, PyObject)>)
    ensures StepText(funcName, args, kwargs)
      == funcName + "(" + Join(", ", ArgTexts(args) + KwargTexts(kwargs)) + ")"
  {
    var a := ArgTexts(args);
    var k := KwargTexts(kwargs);
    if |args| > 0 && |kwargs| > 0 {
      JoinConcat(", ", a, k);
    } else if |args| == 0 {
      assert a + k == k;
    } else {
      assert a + k == a;
    }
  }

  /** The result of calling a step whose function is `func`, with `text`
      its string form: the new `func` and the outcome. */
  function CallStep(func: Option<Callable>, args: seq<PyObject>, kwargs: seq<(string, PyObject)>,
      text: string): (r: (Option<Callable>, CallOutcome))
    ensures func.None? ==> r == (None, RunTwice)
    ensures r.0.None? <==> func.None? || r.1.Returned? || r.1.Failed?
    ensures r.0.Some? ==> r.0 == func
    ensures r.1.Failed? ==> Truthy(r.1.value)
    ensures r.1.Returned? ==> !Truthy(r.1.value)
    ensures func.Some? && func.value.run(args, kwargs).Returns? ==>
      (var v := func.value.run(args, kwargs).value;
       r == (None, if Truthy(v) then Failed(v) else Returned(v)))
    ensures func.Some? && func.value.run(args, kwargs).RaisesValueOrTypeError? ==> r == (func, CouldNotRun(text))
    ensures func.Some? && func.value.run(args, kwargs).RaisesOther? ==>
      r == (func, Propagated(func.value.run(args, kwargs).exception))
  {
    match func
    case None => (None, RunTwice)
    case Some(f) =>
      match f.run(args, kwargs)
      case Returns(v) => (None, if Truthy(v) then Failed(v) else Returned(v))
      case RaisesValueOrTypeError => (func, CouldNotRun(text))
      case RaisesOther(e) => (func, Propagated(e))
  }

  /** A step whose function returned cannot be run again. */
  lemma CallOnlyOnce(func: Option<Callable>, args: seq<PyObject>, kwargs: seq<(string, PyObject)>,
      text: string, laterText: string)
    requires CallStep(func, args, kwargs, text).1.Returned? || CallStep(func, args, kwargs, text).1.Failed?
    ensures func.Some? && CallStep(func, args, kwargs, text).0.None?
    ensures CallStep(CallStep(func, args, kwargs, text).0, args, kwargs, laterText) == (None, RunTwice)
  {
  }

  /** A function that raises stays in place, so the step can be run again;
      a step that was never runnable stays so. */
  lemma CallKeepsFuncOnException(func: Option<Callable>, args: seq<PyObject>,
      kwargs: seq<(string, PyObject)>, text: string)
    ensures var (after, outcome) := CallStep(func, args, kwargs, text);
      (outcome.CouldNotRun? || outcome.Propagated? || outcome.RunTwice?) <==> after == func
  {
  }

  /** Once the step has run, its string names `nonetype`. */
  lemma TextAfterRun(func: Option<Callable>, args: seq<PyObject>, kwargs: seq<(string, PyObject)>,
      text: string)
    requires CallStep(func, args, kwargs, text).1.Returned?
    ensures StartsWith(StepText(FuncName(CallStep(func, args, kwargs, text).0), args, kwargs), "nonetype(")
  {
    var s := StepText(FuncName(None), args, kwargs);
    assert s == "nonetype(" + s[|"nonetype("|..];
  }

  /** One step of an experiment. */
  class Step {
    const name: string
    var func: Option<Callable>
    const args: seq<PyObject>
    const kwargs: seq<(string, PyObject)>

    /** `Step(name, func, *args, **kwargs)`; `func` cannot be None. */
    constructor (name: string, func: Callable, args: seq<PyObject>, kwargs: seq<(string, PyObject)>)
      ensures this.name == name && this.func == Some(func)
      ensures this.args == args && this.kwargs == kwargs
    {
      this.name := name;
      this.func := Some(func);
      this.args := args;
      this.kwargs := kwargs;
    }

    function ToString(): string
      reads this
    {
      StepText(FuncName(func), args, kwargs)
    }

    /** `Step.__call__`: runs the function once and then drops it. */
    method Call() returns (outcome: CallOutcome)
      modifies this
      ensures func == CallStep(old(func), args, kwargs, old(ToString())).0
      ensures outcome == CallStep(old(func), args, kwargs, old(ToString())).1
    {
      if func.None? {
        outcome := RunTwice;
        return;
      }
      var text := ToString();
      var result := func.value.run(args, kwargs);
      match result
      case Returns(v) =>
        func := None;
        if Truthy(v) {
          outcome := Failed(v);
        } else {
          outcome := Returned(v);
        }
      case RaisesValueOrTypeError =>
        outcome := CouldNotRun(text);
      case RaisesOther(e) =>
        outcome := Propagated(e);
    }
  }

  // ---------------------------------------------------------------------
  // Sequence

  /** `Sequence._get_step_index`: the position of the first step with the
      given name; None stands for the critical "There is no step called". */
  method StepIndex(steps: seq<Step>, stepName: string) returns (index: Option<nat>)
    ensures index.Some? ==> index.value < |steps| && steps[index.value].name == stepName
    ensures index.Some? ==> forall j :: 0 <= j < index.value ==> steps[j].name != stepName
    ensures index.None? ==> forall j :: 0 <= j < |steps| ==> steps[j].name != stepName
  {
    var i := 0;
    while i < |steps|
      invariant i <= |steps|
      invariant forall j :: 0 <= j < i ==> steps[j].name != stepName
    {
      if steps[i].name == stepName {
        return Some(i);
      }
      i := i + 1;
    }
    return None;
  }

  const NoStepNumber := "There is no step number "
  const NoStepCalled := "There is no step called "

  /** `Sequence.get_step`: a name of digits is a 1-based number, indexed as
      Python indexes a list (so `0` is the last step); any other name is
      looked up. A failure is the critical message logged. */
  method GetStep(steps: seq<Step>, stepName: string) returns (r: Result<Step>)
    ensures IsDigits(stepName) && 1 <= DigitsValue(stepName) <= |steps| ==>
      r == Success(steps[DigitsValue(stepName) - 1])
    ensures IsDigits(stepName) && DigitsValue(stepName) == 0 && |steps| > 0 ==>
      r == Success(steps[|steps| - 1])
    ensures IsDigits(stepName) && (DigitsValue(stepName) > |steps| || |steps| == 0) ==>
      r == Failure(NoStepNumber + stepName)
    ensures !IsDigits(stepName) ==>
      (r.Success? <==> exists i :: 0 <= i < |steps| && steps[i].name == stepName)
    ensures !IsDigits(stepName) && r.Success? ==> exists i :: (0 <= i < |steps| && r.value == steps[i]
      && steps[i].name == stepName && forall j :: 0 <= j < i ==> steps[j].name != stepName)
    ensures !IsDigits(stepName) && r.Failure? ==> r == Failure(NoStepCalled + stepName)
  {
    if IsDigits(stepName) {
      var index := DigitsValue(stepName) - 1;
      if -|steps| <= index < |steps| {
        return Success(steps[if index < 0 then index + |steps| else index]);
      }
      return Failure(NoStepNumber + stepName);
    }
    var found := StepIndex(steps, stepName);
    match found
    case None =>
      return Failure(NoStepCalled + stepName);
    case Some(i) =>
      return Success(steps[i]);
  }

  // ---------------------------------------------------------------------
  // get_steps_text

  const Header := ["Available steps:", "================"]
  const MaxNameWidth := 50
  const DefaultTerminalWidth := 80

  /** The length of the longest name, 0 for none. */
  function MaxLength(names: seq<string>): (n: nat)
    ensures forall i :: 0 <= i < |names| ==> |names[i]| <= n
    ensures names == [] ==> n == 0
    ensures names != [] ==> exists i :: 0 <= i < |names| && |names[i]| == n
    decreases |names|
  {
    if names == [] then 0
    else
      var rest := MaxLength(names[1..]);
      assert forall i :: 1 <= i < |names| ==> names[i] == names[1..][i - 1];
      if |names[0]| >= rest then |names[0]| else rest
  }

  /** The name column's width: the longest name, capped at 50. */
  function NameWidth(names: seq<string>): (w: nat)
    ensures w <= MaxNameWidth
    ensures names == [] ==> w == 0
    ensures forall i :: 0 <= i < |names| && |names[i]| <= MaxNameWidth ==> |names[i]| <= w
    ensures names != [] ==> exists i :: 0 <= i < |names| && w == if |names[i]| < MaxNameWidth then |names[i]| else MaxNameWidth
  {
    var m := MaxLength(names);
    if m < MaxNameWidth then m else MaxNameWidth
  }

  /** `terminal_width or 80`. */
  function TerminalWidth(reported: nat): (w: nat)
    ensures w > 0
    ensures reported > 0 ==> w == reported
    ensures reported == 0 ==> w == DefaultTerminalWidth
  {
    if reported == 0 then DefaultTerminalWidth else reported
  }

  /** The number column and the padded name. */
  function StepLine(number: nat, name: string, width: nat): string {
    RightJust(NatToString(number), 2) + " " + LeftJust(name, width)
  }

  /** With a name that fits the column and fewer than 100 steps, every
      step line has the same length, so the texts line up. */
  lemma StepLineAligned(number: nat, name: string, width: nat)
    requires 1 <= number < 100 && |name| <= width
    ensures |StepLine(number, name, width)| == width + 3
  {
    if number >= 10 {
      assert NatToString(number) == NatToString(number / 10) + [DigitChar(number % 10)];
    }
  }

  /** The lines of one step: on one line when it fits the terminal, else as
      a block set off by empty lines. */
  function Entry(line: string, text: string, terminalWidth: nat): (e: seq<string>)
    ensures |e| == 1 <==> |line| + |text| < terminalWidth
    ensures |e| == 1 ==> e[0] == line + " " + text
    ensures |e| != 1 ==> e == ["", line, text, ""]
  {
    if |line| + |text| < terminalWidth then [line + " " + text] else ["", line, text, ""]
  }

  /** The number-and-name column of each step, numbered from 1. */
  function StepLines(names: seq<string>, width: nat): (r: seq<string>)
    ensures |r| == |names| && forall i :: 0 <= i < |names| ==> r[i] == StepLine(i + 1, names[i], width)
  {
    seq(|names|, i requires 0 <= i < |names| => StepLine(i + 1, names[i], width))
  }

  /** The entries of the steps, in order, from their step lines and texts. */
  function Layout(lines: seq<string>, texts: seq<string>, terminalWidth: nat): seq<string>
    requires |lines| == |texts|
    decreases |lines|
  {
    if lines == [] then []
    else
      var n := |lines|;
      Layout(lines[..n - 1], texts[..n - 1], terminalWidth) + Entry(lines[n - 1], texts[n - 1], terminalWidth)
  }

  /** Each step takes one or four lines. */
  lemma {:induction false} LayoutLength(lines: seq<string>, texts: seq<string>, terminalWidth: nat)
    requires |lines| == |texts|
    ensures |lines| <= |Layout(lines, texts, terminalWidth)| <= 4 * |lines|
    decreases |lines|
  {
    if lines != [] {
      var n := |lines|;
      LayoutLength(lines[..n - 1], texts[..n - 1], terminalWidth);
    }
  }

  lemma LayoutStep(lines: seq<string>, texts: seq<string>, i: nat, terminalWidth: nat)
    requires |lines| == |texts| && i < |lines|
    ensures Layout(lines[..i + 1], texts[..i + 1], terminalWidth)
      == Layout(lines[..i], texts[..i], terminalWidth) + Entry(lines[i], texts[i], terminalWidth)
  {
    assert lines[..i + 1][..i] == lines[..i];
    assert texts[..i + 1][..i] == texts[..i];
  }

  function Names(steps: seq<Step>): (r: seq<string>)
    ensures |r| == |steps| && forall i :: 0 <= i < |steps| ==> r[i] == steps[i].name
  {
    seq(|steps|, i requires 0 <= i < |steps| => steps[i].name)
  }

  function Texts(steps: seq<Step>): (r: seq<string>)
    reads steps
    ensures |r| == |steps| && forall i :: 0 <= i < |steps| ==> r[i] == steps[i].ToString()
  {
    seq(|steps|, i requires 0 <= i < |steps| reads steps => steps[i].ToString())
  }

  /** The listing always opens with the two header lines. */
  lemma StepsTextHeader(rest: seq<string>)
    ensures StartsWith(Join("\n", Header + rest), "Available steps:\n================")
  {
    if rest != [] {
      JoinConcat("\n", Header, rest);
    }
    assert Join("\n", Header) == "Available steps:\n================" by {
      assert Header[1..] == ["================"];
    }
    if rest == [] {
      assert Header + rest == Header;
    }
  }

  /** The lines `get_steps_text` adds for one step. */
  method StepEntry(line: string, stepText: string, terminalWidth: nat) returns (entry: seq<string>)
    ensures entry == Entry(line, stepText, terminalWidth)
  {
    if |line| + |stepText| < terminalWidth {
      entry := [line + " " + stepText];
    } else {
      entry := ["", line, stepText, ""];
    }
  }

  /** The loop of `get_steps_text`, given each step's number-and-name column
      and its string. */
  method StepsLines(stepLines: seq<string>, texts: seq<string>, terminalWidth: nat)
      returns (lines: seq<string>)
    requires |stepLines| == |texts|
    ensures lines == Header + Layout(stepLines, texts, terminalWidth)
  {
    lines := Header;
    ghost var header := lines;
    var i := 0;
    while i < |stepLines|
      invariant i <= |stepLines|
      invariant lines == header + Layout(stepLines[..i], texts[..i], terminalWidth)
    {
      var entry := StepEntry(stepLines[i], texts[i], terminalWidth);
      ghost var layout := Layout(stepLines[..i], texts[..i], terminalWidth);
      lines := lines + entry;
      LayoutStep(stepLines, texts, i, terminalWidth);
      assert header + layout + entry == header + (layout + entry);
      i := i + 1;
    }
    assert stepLines[..i] == stepLines && texts[..i] == texts;
  }

  /** `Sequence.get_steps_text`, given the terminal width the system reports. */
  method GetStepsText(steps: seq<Step>, reportedWidth: nat) returns (text: string)
    ensures text == Join("\n", Header + Layout(StepLines(Names(steps), NameWidth(Names(steps))),
      Texts(steps), TerminalWidth(reportedWidth)))
  {
    var names := Names(steps);
    var stepLines := StepLines(names, NameWidth(names));
    var lines := StepsLines(stepLines, Texts(steps), TerminalWidth(reportedWidth));
    text := Join("\n", lines);
  }
}
