/**
  Argument vectors handed to an external program, in structured form: an
  optional launcher prefix, the program path, its positional operands and
  its flag/value options. `Render` flattens one to the list of strings the
  process receives; `Parse` reads such a list back, knowing how many
  operands each program takes.
 */
module Argv {

  datatype Option<T> = None | Some(value: T)

  datatype Invocation = Invocation(
    launcher: seq<string>,
    program: string,
    operands: seq<string>,
    options: seq<(string, string)>)

  const MpiRun := "mpirun"
  const ProcessCountFlag := "-np"

  /** Each option becomes two consecutive arguments: the flag, then its value. */
  function Flatten(options: seq<(string, string)>): (args: seq<string>)
    ensures |args| == 2 * |options|
    ensures forall j :: 0 <= j < |options| ==> args[2 * j] == options[j].0 && args[2 * j + 1] == options[j].1
  {
    if options == [] then [] else [options[0].0, options[0].1] + Flatten(options[1..])
  }

  function Render(inv: Invocation): seq<string> {
    inv.launcher + [inv.program] + inv.operands + Flatten(inv.options)
  }

  /** A rendered vector starts with the launcher, then the program. */
  lemma RenderHead(inv: Invocation)
    ensures var argv := Render(inv);
      |argv| > |inv.launcher| && argv[..|inv.launcher|] == inv.launcher && argv[|inv.launcher|] == inv.program
  {
    assert Render(inv) == inv.launcher + ([inv.program] + inv.operands + Flatten(inv.options));
  }

  /** Reads a list of arguments as flag/value pairs; an odd count has a flag without value. */
  function Pairs(args: seq<string>): (r: Option<seq<(string, string)>>)
    ensures r.Some? <==> |args| % 2 == 0
    decreases |args|
  {
    if args == [] then Some([])
    else if |args| == 1 then None
    else match Pairs(args[2..])
      case None => None
      case Some(rest) => Some([(args[0], args[1])] + rest)
  }

  /** The `mpirun -np N` prefix of an argument vector, or nothing when it has none. */
  function LauncherOf(argv: seq<string>): seq<string> {
    if |argv| >= 3 && argv[0] == MpiRun && argv[1] == ProcessCountFlag then argv[..3] else []
  }

  /** Reads the program, its operands and its options that follow a launcher. */
  function ParseProgram(launcher: seq<string>, rest: seq<string>, arity: string -> Option<nat>): Option<Invocation> {
    if rest == [] then None
    else match arity(rest[0])
      case None => None
      case Some(n) =>
        if |rest| < 1 + n then None
        else match Pairs(rest[1 + n..])
          case None => None
          case Some(options) => Some(Invocation(launcher, rest[0], rest[1..1 + n], options))
  }

  /** Reads an argument vector back: an `mpirun -np N` prefix, the program, its operands, its options. */
  function Parse(argv: seq<string>, arity: string -> Option<nat>): Option<Invocation> {
    var launcher := LauncherOf(argv);
    ParseProgram(launcher, argv[|launcher|..], arity)
  }

  /** The value of the first option carrying `flag`. */
  function Lookup(options: seq<(string, string)>, flag: string): Option<string> {
    if options == [] then None
    else if options[0].0 == flag then Some(options[0].1)
    else Lookup(options[1..], flag)
  }

  /** `Lookup` finds a value exactly when some option carries the flag, and the value is that option's. */
  lemma {:induction false} LookupFound(options: seq<(string, string)>, flag: string)
    ensures Lookup(options, flag).Some? <==> exists j :: 0 <= j < |options| && options[j].0 == flag
    ensures Lookup(options, flag).Some? ==>
      exists j :: 0 <= j < |options| && options[j] == (flag, Lookup(options, flag).value)
    decreases |options|
  {
    if options != [] && options[0].0 != flag {
      LookupFound(options[1..], flag);
      if exists j :: 0 <= j < |options| && options[j].0 == flag {
        var j :| 0 <= j < |options| && options[j].0 == flag;
        assert options[1..][j - 1].0 == flag;
      }
      if Lookup(options, flag).Some? {
        var j :| 0 <= j < |options[1..]| && options[1..][j] == (flag, Lookup(options, flag).value);
        assert options[j + 1] == options[1..][j];
      }
    }
  }

  /** The first option carrying a flag is the one `Lookup` finds. */
  lemma {:induction false} LookupFirst(options: seq<(string, string)>, j: nat)
    requires j < |options|
    requires forall m :: 0 <= m < j ==> options[m].0 != options[j].0
    ensures Lookup(options, options[j].0) == Some(options[j].1)
    decreases j
  {
    if j > 0 {
      LookupFirst(options[1..], j - 1);
    }
  }

  /** An invocation `Parse` can read back unambiguously. */
  predicate WellFormed(inv: Invocation, arity: string -> Option<nat>) {
    && (inv.launcher == [] || (|inv.launcher| == 3 && inv.launcher[0] == MpiRun && inv.launcher[1] == ProcessCountFlag))
    && (inv.launcher == [] ==> inv.program != MpiRun)
    && arity(inv.program) == Some(|inv.operands|)
  }

  lemma {:induction false} PairsFlatten(options: seq<(string, string)>)
    ensures Pairs(Flatten(options)) == Some(options)
    decreases |options|
  {
    if options != [] {
      var args := Flatten(options);
      PairsFlatten(options[1..]);
      assert args[2..] == Flatten(options[1..]);
      assert [(args[0], args[1])] + options[1..] == options;
    }
  }

  /** The launcher of a rendered invocation is recognised as such, and nothing else is. */
  lemma LauncherOfRender(inv: Invocation, arity: string -> Option<nat>)
    requires WellFormed(inv, arity)
    ensures LauncherOf(Render(inv)) == inv.launcher
  {
    var argv := Render(inv);
    assert argv == inv.launcher + ([inv.program] + inv.operands + Flatten(inv.options));
    if inv.launcher != [] {
      assert argv[..3] == inv.launcher;
    } else {
      assert argv[0] == inv.program;
    }
  }

  /** The words after the launcher read back as the program, its operands and its options. */
  lemma ParseProgramRender(inv: Invocation, arity: string -> Option<nat>)
    requires arity(inv.program) == Some(|inv.operands|)
    ensures ParseProgram(inv.launcher, [inv.program] + inv.operands + Flatten(inv.options), arity) == Some(inv)
  {
    var n := |inv.operands|;
    var rest := [inv.program] + inv.operands + Flatten(inv.options);
    assert rest[0] == inv.program;
    assert rest[1..1 + n] == inv.operands;
    assert rest[1 + n..] == Flatten(inv.options);
    PairsFlatten(inv.options);
  }

  /** Rendering then parsing gives back the invocation. */
  lemma ParseRender(inv: Invocation, arity: string -> Option<nat>)
    requires WellFormed(inv, arity)
    ensures Parse(Render(inv), arity) == Some(inv)
  {
    var argv := Render(inv);
    LauncherOfRender(inv, arity);
    assert argv[|inv.launcher|..] == [inv.program] + inv.operands + Flatten(inv.options);
    ParseProgramRender(inv, arity);
  }
}
