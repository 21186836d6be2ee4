/**
  One concrete run of the pipeline: receptor `/a/1WEJ_r_u_ASA.pdb`, ligand
  `/a/1WEJ_l_u_ASA.pdb`, result name `abc123`, dat directory `/out`, four
  processors and work directory `/work`. The lemmas pin the derived names
  and the docking stage's map and result options for these inputs.
 */
module ExampleRun {
  import opened PosixPath
  import opened Argv
  import opened Frodock

  function ExampleInputs(): Inputs {
    Inputs("/a/1WEJ_r_u_ASA.pdb", "/a/1WEJ_l_u_ASA.pdb", "abc123", "/out", 4, "/work")
  }

  /** A dot-free, '/'-free name under `/a/` with a `.pdb` extension loses exactly the extension and the directory. */
  lemma PdbInDirectory(name: string)
    requires name != "" && '/' !in name && '.' !in name
    ensures Splitext("/a/" + name + ".pdb") == ("/a/" + name, ".pdb")
    ensures Basename("/a/" + name) == name
  {
    SplitextOneExtension("/a/", name, ".pdb");
  }

  lemma ReceptorSpelling()
    ensures "1WEJ_r_u_ASA" != "" && '/' !in "1WEJ_r_u_ASA" && '.' !in "1WEJ_r_u_ASA"
    ensures "/a/" + "1WEJ_r_u_ASA" + ".pdb" == "/a/1WEJ_r_u_ASA.pdb"
    ensures "/a/" + "1WEJ_r_u_ASA" == "/a/1WEJ_r_u_ASA"
  {
  }

  lemma LigandSpelling()
    ensures "1WEJ_l_u_ASA" != "" && '/' !in "1WEJ_l_u_ASA" && '.' !in "1WEJ_l_u_ASA"
    ensures "/a/" + "1WEJ_l_u_ASA" + ".pdb" == "/a/1WEJ_l_u_ASA.pdb"
    ensures "/a/" + "1WEJ_l_u_ASA" == "/a/1WEJ_l_u_ASA"
  {
  }

  /** The receptor loses its `.pdb` extension and its directory. */
  lemma ExampleReceptorName()
    ensures Splitext("/a/1WEJ_r_u_ASA.pdb").0 == "/a/1WEJ_r_u_ASA"
    ensures Basename("/a/1WEJ_r_u_ASA") == "1WEJ_r_u_ASA"
  {
    ReceptorSpelling();
    PdbInDirectory("1WEJ_r_u_ASA");
  }

  /** The ligand loses its `.pdb` extension and its directory. */
  lemma ExampleLigandName()
    ensures Splitext("/a/1WEJ_l_u_ASA.pdb").0 == "/a/1WEJ_l_u_ASA"
    ensures Basename("/a/1WEJ_l_u_ASA") == "1WEJ_l_u_ASA"
  {
    LigandSpelling();
    PdbInDirectory("1WEJ_l_u_ASA");
  }

  /** The van der Waals map goes into the work directory. */
  lemma ExampleVdwMap()
    ensures Join("/work", "1WEJ_r_u_ASA" + "_W.mrc") == "/work/1WEJ_r_u_ASA_W.mrc"
  {
  }

  /** The electrostatic map goes into the work directory. */
  lemma ExampleElectrostaticMap()
    ensures Join("/work", "1WEJ_r_u_ASA" + "_E.mrc") == "/work/1WEJ_r_u_ASA_E.mrc"
  {
  }

  /** The receptor desolvation map goes into the work directory. */
  lemma ExampleReceptorDesolvationMap()
    ensures Join("/work", "1WEJ_r_u_ASA" + "_DS.mrc") == "/work/1WEJ_r_u_ASA_DS.mrc"
  {
  }

  /** The ligand desolvation map goes into the work directory. */
  lemma ExampleLigandDesolvationMap()
    ensures Join("/work", "1WEJ_l_u_ASA" + "_DS.mrc") == "/work/1WEJ_l_u_ASA_DS.mrc"
  {
  }

  /** The docking result goes into the dat directory. */
  lemma ExampleDockFile()
    ensures Join("/out", "abc123" + "_dock.dat") == "/out/abc123_dock.dat"
  {
  }

  /** The derived names of the example run. */
  lemma ExamplePaths()
    ensures var p := DerivePaths(ExampleInputs());
      && p.receptorBase == "1WEJ_r_u_ASA" && p.ligandBase == "1WEJ_l_u_ASA"
      && p.vdwMap == "/work/1WEJ_r_u_ASA_W.mrc"
      && p.electrostaticMap == "/work/1WEJ_r_u_ASA_E.mrc"
      && p.receptorDesolvationMap == "/work/1WEJ_r_u_ASA_DS.mrc"
      && p.ligandDesolvationMap == "/work/1WEJ_l_u_ASA_DS.mrc"
      && p.dockDat == "/out/abc123_dock.dat"
  {
    ExampleReceptorName();
    ExampleLigandName();
    ExampleVdwMap();
    ExampleElectrostaticMap();
    ExampleReceptorDesolvationMap();
    ExampleLigandDesolvationMap();
    ExampleDockFile();
  }

  /**
    The docking command of the example run reads `-w /work/1WEJ_r_u_ASA_W.mrc`,
    `-e /work/1WEJ_r_u_ASA_E.mrc`, the two desolvation maps joined by a comma
    as `-d`, and writes `-o /out/abc123_dock.dat`.
   */
  lemma ExampleDockingCommand()
    ensures var c := Commands(ExampleInputs());
      && |c| == 8
      && ArgOf(c[4], "-w") == Some("/work/1WEJ_r_u_ASA_W.mrc")
      && ArgOf(c[4], "-e") == Some("/work/1WEJ_r_u_ASA_E.mrc")
      && ArgOf(c[4], "-d") == Some("/work/1WEJ_r_u_ASA_DS.mrc" + "," + "/work/1WEJ_l_u_ASA_DS.mrc")
      && ArgOf(c[4], "-o") == Some("/out/abc123_dock.dat")
  {
    var i := ExampleInputs();
    var p := DerivePaths(i);
    ExamplePaths();
    DockingStageOptions(i, p);
    ArgOfStage(i, p, 4, "-w");
    ArgOfStage(i, p, 4, "-e");
    ArgOfStage(i, p, 4, "-d");
    ArgOfStage(i, p, 4, "-o");
  }
}
