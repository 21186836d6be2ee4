/**
  The command-building rule of the FRODOCK pipeline driver: from the six
  run parameters it derives the base names and file paths, chooses the MPI
  or the single-processor binaries, and builds the eight argument vectors
  that are run in order (three receptor potential maps, one ligand map,
  docking, clustering, and two views of the clustered solutions).
 */
module Frodock {
  import opened PosixPath
  import opened Decimal
  import opened Argv

  /** The parameters of one run, in command-line order. */
  datatype Inputs = Inputs(
    receptorFile: string,
    ligandFile: string,
    datFilesName: string,
    datDir: string,
    np: int,
    workdir: string)

  const BinDir := "./bin/"
  const MpiSuffix := "_mpi"
  const CompilerSuffix := "_gcc"

  /** The four external FRODOCK programs. */
  datatype Tool = Grid | Dock | Cluster | View

  function ToolName(t: Tool): string {
    match t
    case Grid => "frodockgrid"
    case Dock => "frodock"
    case Cluster => "frodockcluster"
    case View => "frodockview"
  }

  /** How many positional operands each program is given before its options. */
  function OperandCount(t: Tool): nat {
    match t
    case Grid => 1
    case Dock => 2
    case Cluster => 2
    case View => 1
  }

  /** `./bin/<name>_mpi_gcc` for the MPI build, `./bin/<name>_gcc` otherwise. */
  function Binary(t: Tool, mpi: bool): string {
    BinDir + ToolName(t) + (if mpi then MpiSuffix else "") + CompilerSuffix
  }

  /** The tool order of the eight stages. */
  const StageTools: seq<Tool> := [Grid, Grid, Grid, Grid, Dock, Cluster, View, View]

  /** Stages 1-5 may run under MPI; 6-8 always use the serial build. */
  const ParallelStages := 5

  /** Every program path `Binary` can produce, with its operand count. */
  function Programs(): seq<(string, nat)> {
    [ (Binary(Grid, true), 1), (Binary(Grid, false), 1),
      (Binary(Dock, true), 2), (Binary(Dock, false), 2),
      (Binary(Cluster, true), 2), (Binary(Cluster, false), 2),
      (Binary(View, true), 1), (Binary(View, false), 1)]
  }

  function ArityIn(table: seq<(string, nat)>, program: string): Option<nat> {
    if table == [] then None
    else if table[0].0 == program then Some(table[0].1)
    else ArityIn(table[1..], program)
  }

  /** The operand count of a program path, for every path `Binary` can produce. */
  function ToolArity(program: string): Option<nat> {
    ArityIn(Programs(), program)
  }

  /** Two program paths are equal only for the same tool and the same build. */
  lemma BinaryInjective(t: Tool, m: bool, u: Tool, n: bool)
    requires Binary(t, m) == Binary(u, n)
    ensures t == u && m == n
  {
    assert Binary(t, m)[13] == Binary(u, n)[13];
    assert |Binary(t, m)| == |Binary(u, n)|;
  }

  lemma ToolArityOfBinary(t: Tool, mpi: bool)
    ensures ToolArity(Binary(t, mpi)) == Some(OperandCount(t))
    ensures Binary(t, mpi) != MpiRun
  {
    forall u: Tool, n: bool | Binary(t, mpi) == Binary(u, n)
      ensures t == u
    {
      BinaryInjective(t, mpi, u, n);
    }
    assert |Binary(t, mpi)| > |MpiRun|;
  }

  /** True when the run uses the MPI builds and the `mpirun` launcher. */
  predicate UsesMpi(np: int) {
    np >= 2
  }

  /** `mpirun -np <np>` when the run uses MPI, nothing otherwise. */
  function Launcher(np: int): seq<string> {
    if UsesMpi(np) then [MpiRun, ProcessCountFlag, NatToString(np)] else []
  }

  /**
    The names derived from the inputs: the extension-stripped input paths,
    their final components, the four potential-map files in the work
    directory and the two result files in the dat directory.
   */
  datatype Paths = Paths(
    receptor: string,
    ligand: string,
    receptorBase: string,
    ligandBase: string,
    vdwMap: string,
    electrostaticMap: string,
    receptorDesolvationMap: string,
    ligandDesolvationMap: string,
    dockDat: string,
    clustDat: string)

  function DerivePaths(i: Inputs): Paths {
    var receptor := Splitext(i.receptorFile).0;
    var ligand := Splitext(i.ligandFile).0;
    var receptorBase := Basename(receptor);
    var ligandBase := Basename(ligand);
    Paths(receptor, ligand, receptorBase, ligandBase,
          Join(i.workdir, receptorBase + "_W.mrc"),
          Join(i.workdir, receptorBase + "_E.mrc"),
          Join(i.workdir, receptorBase + "_DS.mrc"),
          Join(i.workdir, ligandBase + "_DS.mrc"),
          Join(i.datDir, i.datFilesName + "_dock.dat"),
          Join(i.datDir, i.datFilesName + "_clust_dock.dat"))
  }

  /** Stage 1: receptor van der Waals potential map. */
  function VdwMapStage(i: Inputs, p: Paths): Invocation {
    Invocation(Launcher(i.np), Binary(Grid, UsesMpi(i.np)), [i.receptorFile], [("-o", p.vdwMap)])
  }

  /** Stage 2: receptor electrostatic potential map. */
  function ElectrostaticMapStage(i: Inputs, p: Paths): Invocation {
    Invocation(Launcher(i.np), Binary(Grid, UsesMpi(i.np)), [i.receptorFile],
      [("-o", p.electrostaticMap), ("-m", "1"), ("-t", "A")])
  }

  /** Stage 3: receptor desolvation potential map. */
  function ReceptorDesolvationMapStage(i: Inputs, p: Paths): Invocation {
    Invocation(Launcher(i.np), Binary(Grid, UsesMpi(i.np)), [i.receptorFile],
      [("-o", p.receptorDesolvationMap), ("-m", "3")])
  }

  /** Stage 4: ligand desolvation potential map. */
  function LigandDesolvationMapStage(i: Inputs, p: Paths): Invocation {
    Invocation(Launcher(i.np), Binary(Grid, UsesMpi(i.np)), [i.ligandFile],
      [("-o", p.ligandDesolvationMap), ("-m", "3")])
  }

  /** Stage 5: the docking search. */
  function DockingStage(i: Inputs, p: Paths): Invocation {
    Invocation(Launcher(i.np), Binary(Dock, UsesMpi(i.np)), [p.receptor + "_ASA.pdb", p.ligand + "_ASA.pdb"],
      [ ("-w", p.vdwMap),
        ("-e", p.electrostaticMap),
        ("--th", "10"),
        ("-d", p.receptorDesolvationMap + "," + p.ligandDesolvationMap),
        ("-t", "A"),
        ("-o", p.dockDat),
        ("-s", BinDir + "soap.bin")])
  }

  /** Stage 6: clustering of the docking solutions (always the serial build). */
  function ClusterStage(i: Inputs, p: Paths): Invocation {
    Invocation([], Binary(Cluster, false), [p.dockDat, i.ligandFile],
      [("--nc", "100"), ("-o", p.clustDat)])
  }

  /** Stage 7: view of the first 20 clustered solutions. */
  function ViewStage(i: Inputs, p: Paths): Invocation {
    Invocation([], Binary(View, false), [p.clustDat], [("-r", "1-20")])
  }

  /** Stage 8: coordinates of the 10 best clustered solutions. */
  function CoordinatesStage(i: Inputs, p: Paths): Invocation {
    Invocation([], Binary(View, false), [p.clustDat], [("-r", "1-10"), ("-p", i.ligandFile)])
  }

  /** The eight stage invocations for the given derived paths, in the order they run. */
  function StagesFor(i: Inputs, p: Paths): seq<Invocation> {
    [ VdwMapStage(i, p), ElectrostaticMapStage(i, p), ReceptorDesolvationMapStage(i, p), LigandDesolvationMapStage(i, p),
      DockingStage(i, p), ClusterStage(i, p), ViewStage(i, p), CoordinatesStage(i, p)]
  }

  function CommandsFor(i: Inputs, p: Paths): seq<seq<string>> {
    var stages := StagesFor(i, p);
    seq(|stages|, k requires 0 <= k < |stages| => Render(stages[k]))
  }

  /** The eight argument vectors the driver runs, in order. */
  function Commands(i: Inputs): seq<seq<string>> {
    CommandsFor(i, DerivePaths(i))
  }

  /** The value a program reads for `flag` from an argument vector. */
  function ArgOf(argv: seq<string>, flag: string): Option<string> {
    match Parse(argv, ToolArity)
    case None => None
    case Some(inv) => Lookup(inv.options, flag)
  }

  /** The `j`-th positional operand a program reads from an argument vector. */
  function OperandOf(argv: seq<string>, j: nat): Option<string> {
    match Parse(argv, ToolArity)
    case None => None
    case Some(inv) => if j < |inv.operands| then Some(inv.operands[j]) else None
  }

  /** Every stage is an invocation `Parse` reads back unambiguously. */
  lemma StagesWellFormed(i: Inputs, p: Paths)
    ensures forall k :: 0 <= k < |StagesFor(i, p)| ==> WellFormed(StagesFor(i, p)[k], ToolArity)
  {
    StageLayout(i, p);
    forall k | 0 <= k < 8
      ensures WellFormed(StagesFor(i, p)[k], ToolArity)
    {
      ToolArityOfBinary(StageTools[k], k < ParallelStages && UsesMpi(i.np));
    }
  }

  /** Every argument vector parses back to its stage, so stage facts can be read off the vectors. */
  lemma CommandsParse(i: Inputs, p: Paths)
    ensures |CommandsFor(i, p)| == 8
    ensures forall k :: 0 <= k < 8 ==> CommandsFor(i, p)[k] == Render(StagesFor(i, p)[k])
    ensures forall k :: 0 <= k < 8 ==> Parse(CommandsFor(i, p)[k], ToolArity) == Some(StagesFor(i, p)[k])
  {
    var stages := StagesFor(i, p);
    StagesWellFormed(i, p);
    forall k | 0 <= k < 8
      ensures Parse(Render(stages[k]), ToolArity) == Some(stages[k])
    {
      ParseRender(stages[k], ToolArity);
    }
  }

  /** The launcher, program and operand count of each stage. */
  lemma StageLayout(i: Inputs, p: Paths)
    ensures |StagesFor(i, p)| == 8
    ensures forall k :: 0 <= k < 8 ==>
      && StagesFor(i, p)[k].launcher == (if k < ParallelStages then Launcher(i.np) else [])
      && StagesFor(i, p)[k].program == Binary(StageTools[k], k < ParallelStages && UsesMpi(i.np))
      && |StagesFor(i, p)[k].operands| == OperandCount(StageTools[k])
  {
  }

  /**
    Exactly eight commands, running frodockgrid four times, then frodock,
    frodockcluster and frodockview twice; the first five use the MPI build
    exactly when np >= 2, the last three never do.
   */
  lemma ProgramOrder(i: Inputs)
    ensures |Commands(i)| == 8
    ensures forall k :: 0 <= k < 8 ==>
      Parse(Commands(i)[k], ToolArity).Some? &&
      Parse(Commands(i)[k], ToolArity).value.program == Binary(StageTools[k], k < ParallelStages && i.np >= 2)
  {
    CommandsParse(i, DerivePaths(i));
    StageLayout(i, DerivePaths(i));
  }

  /** The spelling of each program path. */
  lemma BinarySpelling(t: Tool)
    ensures Binary(t, true) == "./bin/" + ToolName(t) + "_mpi_gcc"
    ensures Binary(t, false) == "./bin/" + ToolName(t) + "_gcc"
  {
  }

  /**
    With np >= 2 stages 1-5 start with `mpirun -np <np>` followed by the
    `_mpi_gcc` binary; with np < 2 they start with the `_gcc` binary.
    This holds whatever the derived paths are.
   */
  lemma MpiSelectionFor(i: Inputs, p: Paths)
    ensures |CommandsFor(i, p)| == 8
    ensures forall k :: 0 <= k < ParallelStages ==>
      var c := CommandsFor(i, p)[k];
      |c| > 3 &&
      (i.np >= 2 ==> c[..3] == ["mpirun", "-np", NatToString(i.np)] && c[3] == "./bin/" + ToolName(StageTools[k]) + "_mpi_gcc") &&
      (i.np < 2 ==> c[0] == "./bin/" + ToolName(StageTools[k]) + "_gcc")
  {
    CommandsParse(i, p);
    StageLayout(i, p);
    var c := CommandsFor(i, p);
    forall k | 0 <= k < ParallelStages
      ensures |c[k]| > 3
      ensures i.np >= 2 ==> c[k][..3] == ["mpirun", "-np", NatToString(i.np)]
      ensures i.np >= 2 ==> c[k][3] == "./bin/" + ToolName(StageTools[k]) + "_mpi_gcc"
      ensures i.np < 2 ==> c[k][0] == "./bin/" + ToolName(StageTools[k]) + "_gcc"
    {
      BinarySpelling(StageTools[k]);
      var s := StagesFor(i, p)[k];
      RenderHead(s);
      assert |s.operands| > 0;
      assert |c[k]| == |s.launcher| + 1 + |s.operands| + 2 * |s.options|;
    }
  }

  /** `MpiSelectionFor` for the commands the driver runs. */
  lemma MpiSelection(i: Inputs)
    ensures |Commands(i)| == 8
    ensures forall k :: 0 <= k < ParallelStages ==>
      |Commands(i)[k]| > 3 &&
      (i.np >= 2 ==>
         && Commands(i)[k][..3] == ["mpirun", "-np", NatToString(i.np)]
         && Commands(i)[k][3] == "./bin/" + ToolName(StageTools[k]) + "_mpi_gcc") &&
      (i.np < 2 ==> Commands(i)[k][0] == "./bin/" + ToolName(StageTools[k]) + "_gcc")
  {
    MpiSelectionFor(i, DerivePaths(i));
  }

  /** Stages 6-8 never get the launcher and always run the `_gcc` binary, whatever np is. */
  lemma SerialTail(i: Inputs)
    ensures |Commands(i)| == 8
    ensures forall k :: ParallelStages <= k < 8 ==>
      |Commands(i)[k]| > 0 &&
      Commands(i)[k][0] == "./bin/" + ToolName(StageTools[k]) + "_gcc" &&
      Commands(i)[k][0] != "mpirun"
  {
    var p := DerivePaths(i);
    CommandsParse(i, p);
    StageLayout(i, p);
    var c := CommandsFor(i, p);
    forall k | ParallelStages <= k < 8
      ensures |c[k]| > 0 && c[k][0] == "./bin/" + ToolName(StageTools[k]) + "_gcc" && c[k][0] != "mpirun"
    {
      BinarySpelling(StageTools[k]);
      ToolArityOfBinary(StageTools[k], false);
      RenderHead(StagesFor(i, p)[k]);
    }
  }

  /** The value of a flag in a command is the value of that flag in its stage. */
  lemma ArgOfStage(i: Inputs, p: Paths, k: nat, flag: string)
    requires k < 8
    ensures |CommandsFor(i, p)| == 8
    ensures ArgOf(CommandsFor(i, p)[k], flag) == Lookup(StagesFor(i, p)[k].options, flag)
  {
    CommandsParse(i, p);
  }

  /** The `j`-th operand read from a command is the `j`-th operand of its stage. */
  lemma OperandOfStage(i: Inputs, p: Paths, k: nat, j: nat)
    requires k < 8 && j < |StagesFor(i, p)[k].operands|
    ensures |CommandsFor(i, p)| == 8
    ensures OperandOf(CommandsFor(i, p)[k], j) == Some(StagesFor(i, p)[k].operands[j])
  {
    CommandsParse(i, p);
  }

  /** The output flag of each map stage. */
  lemma MapStageOptions(i: Inputs, p: Paths)
    ensures |StagesFor(i, p)| == 8
    ensures Lookup(StagesFor(i, p)[0].options, "-o") == Some(p.vdwMap)
    ensures Lookup(StagesFor(i, p)[1].options, "-o") == Some(p.electrostaticMap)
    ensures Lookup(StagesFor(i, p)[2].options, "-o") == Some(p.receptorDesolvationMap)
    ensures Lookup(StagesFor(i, p)[3].options, "-o") == Some(p.ligandDesolvationMap)
  {
    LookupFirst(VdwMapStage(i, p).options, 0);
    LookupFirst(ElectrostaticMapStage(i, p).options, 0);
    LookupFirst(ReceptorDesolvationMapStage(i, p).options, 0);
    LookupFirst(LigandDesolvationMapStage(i, p).options, 0);
  }

  /** The map inputs and the result file of the docking stage. */
  lemma DockingStageOptions(i: Inputs, p: Paths)
    ensures |StagesFor(i, p)| == 8
    ensures var o := StagesFor(i, p)[4].options;
      && Lookup(o, "-w") == Some(p.vdwMap)
      && Lookup(o, "-e") == Some(p.electrostaticMap)
      && Lookup(o, "-d") == Some(p.receptorDesolvationMap + "," + p.ligandDesolvationMap)
      && Lookup(o, "-o") == Some(p.dockDat)
  {
    var o := DockingStage(i, p).options;
    LookupFirst(o, 0);
    assert o[0].0[1] == 'w' && o[1].0[1] == 'e';
    LookupFirst(o, 1);
    assert o[2].0[1] == '-' && o[3].0[1] == 'd';
    LookupFirst(o, 3);
    assert o[4].0[1] == 't' && o[5].0[1] == 'o';
    LookupFirst(o, 5);
  }

  /** The options of the clustering and view stages. */
  lemma TailStageOptions(i: Inputs, p: Paths)
    ensures |StagesFor(i, p)| == 8
    ensures Lookup(StagesFor(i, p)[5].options, "-o") == Some(p.clustDat)
    ensures Lookup(StagesFor(i, p)[6].options, "-r") == Some("1-20")
    ensures Lookup(StagesFor(i, p)[7].options, "-r") == Some("1-10")
    ensures Lookup(StagesFor(i, p)[7].options, "-p") == Some(i.ligandFile)
  {
    var o := ClusterStage(i, p).options;
    assert |o[0].0| != |o[1].0|;
    LookupFirst(o, 1);
    LookupFirst(ViewStage(i, p).options, 0);
    var v := CoordinatesStage(i, p).options;
    LookupFirst(v, 0);
    assert v[0].0[1] == 'r' && v[1].0[1] == 'p';
    LookupFirst(v, 1);
  }

  /**
    The base names are the input paths without extension and without
    directory: each is the longest '/'-free tail of its stripped path.
   */
  lemma BaseNames(i: Inputs)
    ensures var p := DerivePaths(i);
      && p.receptor + Splitext(i.receptorFile).1 == i.receptorFile
      && p.ligand + Splitext(i.ligandFile).1 == i.ligandFile
      && '/' !in p.receptorBase && '/' !in p.ligandBase
      && p.receptorBase == p.receptor[|p.receptor| - |p.receptorBase|..]
      && p.ligandBase == p.ligand[|p.ligand| - |p.ligandBase|..]
      && (|p.receptorBase| < |p.receptor| ==> p.receptor[|p.receptor| - |p.receptorBase| - 1] == '/')
      && (|p.ligandBase| < |p.ligand| ==> p.ligand[|p.ligand| - |p.ligandBase| - 1] == '/')
  {
  }

  /** Whatever the derived paths, commands 1-4 write the four potential maps. */
  lemma MapOutputsFor(i: Inputs, p: Paths)
    ensures var c := CommandsFor(i, p);
      && |c| == 8
      && ArgOf(c[0], "-o") == Some(p.vdwMap)
      && ArgOf(c[1], "-o") == Some(p.electrostaticMap)
      && ArgOf(c[2], "-o") == Some(p.receptorDesolvationMap)
      && ArgOf(c[3], "-o") == Some(p.ligandDesolvationMap)
  {
    MapStageOptions(i, p);
    ArgOfStage(i, p, 0, "-o");
    ArgOfStage(i, p, 1, "-o");
    ArgOfStage(i, p, 2, "-o");
    ArgOfStage(i, p, 3, "-o");
  }

  /** A file name built from a '/'-free base keeps its name when joined onto a directory. */
  lemma JoinedFileName(dir: string, base: string, suffix: string)
    requires '/' !in base && '/' !in suffix && suffix != ""
    ensures Basename(Join(dir, base + suffix)) == base + suffix
  {
    assert forall j :: 0 <= j < |base + suffix| ==> (base + suffix)[j] != '/' by {
      forall j | 0 <= j < |base + suffix|
        ensures (base + suffix)[j] != '/'
      {
        if j < |base| { assert (base + suffix)[j] == base[j]; }
        else { assert (base + suffix)[j] == suffix[j - |base|]; }
      }
    }
    JoinBasename(dir, base + suffix);
  }

  /** Each map file keeps its `<base><suffix>` name as the final component of its path. */
  lemma MapFileNames(i: Inputs)
    ensures var p := DerivePaths(i);
      && Basename(p.vdwMap) == p.receptorBase + "_W.mrc"
      && Basename(p.electrostaticMap) == p.receptorBase + "_E.mrc"
      && Basename(p.receptorDesolvationMap) == p.receptorBase + "_DS.mrc"
      && Basename(p.ligandDesolvationMap) == p.ligandBase + "_DS.mrc"
  {
    var p := DerivePaths(i);
    MapFileNamesIn(i.workdir, p.receptorBase, p.ligandBase);
  }

  lemma MapFileNamesIn(dir: string, receptorBase: string, ligandBase: string)
    requires '/' !in receptorBase && '/' !in ligandBase
    ensures Basename(Join(dir, receptorBase + "_W.mrc")) == receptorBase + "_W.mrc"
    ensures Basename(Join(dir, receptorBase + "_E.mrc")) == receptorBase + "_E.mrc"
    ensures Basename(Join(dir, receptorBase + "_DS.mrc")) == receptorBase + "_DS.mrc"
    ensures Basename(Join(dir, ligandBase + "_DS.mrc")) == ligandBase + "_DS.mrc"
  {
    JoinedFileName(dir, receptorBase, "_W.mrc");
    JoinedFileName(dir, receptorBase, "_E.mrc");
    JoinedFileName(dir, receptorBase, "_DS.mrc");
    JoinedFileName(dir, ligandBase, "_DS.mrc");
  }

  /**
    `MapOutputsFor` for the derived paths: the maps go into the work directory,
    each under its `<base>_W.mrc`, `<base>_E.mrc` or `<base>_DS.mrc` name.
   */
  lemma MapOutputs(i: Inputs)
    ensures var c, p := Commands(i), DerivePaths(i);
      && |c| == 8
      && ArgOf(c[0], "-o") == Some(Join(i.workdir, p.receptorBase + "_W.mrc"))
      && ArgOf(c[1], "-o") == Some(Join(i.workdir, p.receptorBase + "_E.mrc"))
      && ArgOf(c[2], "-o") == Some(Join(i.workdir, p.receptorBase + "_DS.mrc"))
      && ArgOf(c[3], "-o") == Some(Join(i.workdir, p.ligandBase + "_DS.mrc"))
      && Basename(ArgOf(c[0], "-o").value) == p.receptorBase + "_W.mrc"
      && Basename(ArgOf(c[1], "-o").value) == p.receptorBase + "_E.mrc"
      && Basename(ArgOf(c[2], "-o").value) == p.receptorBase + "_DS.mrc"
      && Basename(ArgOf(c[3], "-o").value) == p.ligandBase + "_DS.mrc"
  {
    MapOutputsFor(i, DerivePaths(i));
    MapFileNames(i);
  }

  /**
    The docking stage reads what the map stages wrote: its `-w` and `-e` are
    the outputs of stages 1 and 2, its `-d` is the outputs of stages 3 and 4
    joined by a comma, and its two structures are the stripped input paths
    with `_ASA.pdb` appended.
   */
  lemma DockingInputsFor(i: Inputs, p: Paths)
    ensures var c := CommandsFor(i, p);
      && |c| == 8
      && ArgOf(c[0], "-o").Some? && ArgOf(c[1], "-o").Some?
      && ArgOf(c[2], "-o").Some? && ArgOf(c[3], "-o").Some?
      && ArgOf(c[4], "-w") == ArgOf(c[0], "-o")
      && ArgOf(c[4], "-e") == ArgOf(c[1], "-o")
      && ArgOf(c[4], "-d") == Some(ArgOf(c[2], "-o").value + "," + ArgOf(c[3], "-o").value)
      && OperandOf(c[4], 0) == Some(p.receptor + "_ASA.pdb")
      && OperandOf(c[4], 1) == Some(p.ligand + "_ASA.pdb")
  {
    MapOutputsFor(i, p);
    DockingStageOptions(i, p);
    ArgOfStage(i, p, 4, "-w");
    ArgOfStage(i, p, 4, "-e");
    ArgOfStage(i, p, 4, "-d");
    OperandOfStage(i, p, 4, 0);
    OperandOfStage(i, p, 4, 1);
  }

  /** `DockingInputsFor` for the commands the driver runs, with the paths stripped by `Splitext`. */
  lemma DockingInputs(i: Inputs)
    ensures var c := Commands(i);
      && |c| == 8
      && ArgOf(c[0], "-o").Some? && ArgOf(c[1], "-o").Some?
      && ArgOf(c[2], "-o").Some? && ArgOf(c[3], "-o").Some?
      && ArgOf(c[4], "-w") == ArgOf(c[0], "-o")
      && ArgOf(c[4], "-e") == ArgOf(c[1], "-o")
      && ArgOf(c[4], "-d") == Some(ArgOf(c[2], "-o").value + "," + ArgOf(c[3], "-o").value)
      && OperandOf(c[4], 0) == Some(Splitext(i.receptorFile).0 + "_ASA.pdb")
      && OperandOf(c[4], 1) == Some(Splitext(i.ligandFile).0 + "_ASA.pdb")
  {
    DockingInputsFor(i, DerivePaths(i));
  }

  /**
    The result files chain: docking writes the dock file, clustering reads
    it and writes the clustered file, and both views read that, the first
    for solutions 1-20, the second for 1-10 with the ligand file.
   */
  lemma ResultChainFor(i: Inputs, p: Paths)
    ensures var c := CommandsFor(i, p);
      && |c| == 8
      && ArgOf(c[4], "-o") == Some(p.dockDat)
      && OperandOf(c[5], 0) == ArgOf(c[4], "-o")
      && OperandOf(c[5], 1) == Some(i.ligandFile)
      && ArgOf(c[5], "-o") == Some(p.clustDat)
      && OperandOf(c[6], 0) == ArgOf(c[5], "-o")
      && OperandOf(c[7], 0) == ArgOf(c[5], "-o")
      && ArgOf(c[6], "-r") == Some("1-20")
      && ArgOf(c[7], "-r") == Some("1-10")
      && ArgOf(c[7], "-p") == Some(i.ligandFile)
  {
    DockingStageOptions(i, p);
    TailStageOptions(i, p);
    ArgOfStage(i, p, 4, "-o");
    ArgOfStage(i, p, 5, "-o");
    ArgOfStage(i, p, 6, "-r");
    ArgOfStage(i, p, 7, "-r");
    ArgOfStage(i, p, 7, "-p");
    OperandOfStage(i, p, 5, 0);
    OperandOfStage(i, p, 5, 1);
    OperandOfStage(i, p, 6, 0);
    OperandOfStage(i, p, 7, 0);
  }

  /** `ResultChainFor` for the derived paths: `<name>_dock.dat` and `<name>_clust_dock.dat` in the dat directory. */
  lemma ResultChain(i: Inputs)
    ensures var c := Commands(i);
      && |c| == 8
      && ArgOf(c[4], "-o") == Some(Join(i.datDir, i.datFilesName + "_dock.dat"))
      && OperandOf(c[5], 0) == ArgOf(c[4], "-o")
      && OperandOf(c[5], 1) == Some(i.ligandFile)
      && ArgOf(c[5], "-o") == Some(Join(i.datDir, i.datFilesName + "_clust_dock.dat"))
      && OperandOf(c[6], 0) == ArgOf(c[5], "-o")
      && OperandOf(c[7], 0) == ArgOf(c[5], "-o")
      && ArgOf(c[6], "-r") == Some("1-20")
      && ArgOf(c[7], "-r") == Some("1-10")
      && ArgOf(c[7], "-p") == Some(i.ligandFile)
  {
    ResultChainFor(i, DerivePaths(i));
  }
}
