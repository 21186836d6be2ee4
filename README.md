# FRODOCK pipeline driver, modelled in Dafny

This project models `run_frodock.py`, the driver of the FRODOCK docking pipeline. The script takes six run parameters:
- a receptor structure;
- a ligand structure;
- a base name for the result files;
- a directory for those files (the dat directory);
- a processor count;
- a work directory for the potential maps.

From these it derives file names, chooses between the MPI and the single-processor builds of the FRODOCK programs, and runs eight external commands in a fixed order:
- four `frodockgrid` potential maps;
- `frodock` docking;
- `frodockcluster` clustering;
- two `frodockview` views.

A stage that exits with a non-zero status is only reported, and the run goes on.

The model has six modules:

- `PosixPath` (`posix_path.dfy`) holds the three POSIX path helpers the script uses: `splitext`, `basename` and `join`.
- `Decimal` (`decimal.dfy`) renders the processor count as decimal text, as `str` does.
- `Argv` (`argv.dfy`) describes an argument vector as a launcher prefix, a program, positional operands and flag/value options.
  - `Render` flattens it.
  - `Parse` reads it back.
  - `Lookup` finds a flag's value by a fixed reading convention: the flag's first occurrence, with the value next.
  - These let the hand-off between stages be stated as "the value of flag X in command k".
- `Frodock` (`frodock.dfy`) holds the run inputs, the derived names (`DerivePaths`), the eight stage invocations, and `Commands`, the eight argument vectors. It also holds the lemmas about them.
- `ExampleRun` (`example_run.dfy`) works one concrete run through: receptor `/a/1WEJ_r_u_ASA.pdb`, ligand `/a/1WEJ_l_u_ASA.pdb`, name `abc123`, dat directory `/out`, four processors, work directory `/work`.
- `Driver` (`driver.dfy`) covers the side-effecting part:
  - creating the dat directory;
  - the `execute` loop over the eight commands, driven by an oracle that gives each stage's outcome;
  - the command-line entry point and its argument-count guard.
  - `Run`, `Script` and `Trace` specify the observable events. `ExecuteAll`, `RunScript`, `RunFrodock` and `CommandLine` are the methods proved against them.

A stage outcome is either `Exited(code)` or `LaunchFailed`:
- `Exited(code)`: the program ran and ended with that status.
- `LaunchFailed`: the program could not be started. `subprocess.run` then raises an OS error instead of `CalledProcessError`. `execute` does not catch it, so the script ends with status 1.

Because non-zero exits are only warned about, the run reaches `RUN FINISHED` for every combination of exit statuses (`RunAllLaunched`). It does not when a binary cannot be started: `subprocess.run` then raises an `OSError` that `execute` does not catch. The model accepts any integer processor count, as the code does: every value below 2, including 0 and negative ones, selects the single-processor builds.

## Model

| member | source | states |
|---|---|---|
| PosixPath.Basename | run_frodock.py:33-34 | The base name has no '/', is a suffix of the path, and is preceded by '/' when it is not the whole path. |
| PosixPath.Splitext | run_frodock.py:30-31 | The root and the extension concatenate back to the path. |
| PosixPath.SplitextExtension | run_frodock.py:30-31 | The extension is empty or is one '.' followed by text with no '.' and no '/'. A non-empty extension leaves a root whose final component is not all dots. An empty extension means every '.' of the final component is a leading dot. |
| PosixPath.SplitextOneExtension | run_frodock.py:30-34 | A path `<dir>/<name>.<ext>`, with no '.' in the name, splits into `<dir>/<name>` and `.<ext>`, and the base name of the root is `<name>`. |
| PosixPath.Join | run_frodock.py:70-71 | An absolute second part replaces the first. Otherwise the result is the first part, at most one inserted '/', then the second part. The '/' is inserted exactly when the first part is non-empty and does not already end in one. |
| PosixPath.JoinBasename | run_frodock.py:75-87 | A non-empty file name without '/' joined onto any directory is the base name of the result. |
| Decimal.NatToString | run_frodock.py:50 | The rendering of the processor count is non-empty, all digits, and has no leading zero. |
| Decimal.NatToStringRoundTrip | run_frodock.py:50 | Reading the rendered digits back gives the processor count. |
| Decimal.NatToStringInjective | run_frodock.py:50 | Different processor counts never render to the same `-np` argument. |
| Argv.Flatten | run_frodock.py:75-106 | Option j becomes the arguments at 2j and 2j+1: the flag, then its value. |
| Argv.ParseRender | run_frodock.py:75-106 | Every well-formed invocation reads back from its argument vector unchanged: launcher, program, operands and options. |
| Frodock.Binary | run_frodock.py:26-28 | Computes the program path `./bin/<name>` + `_mpi` for the MPI build + `_gcc`; its spelling and injectivity are `BinarySpelling` and `BinaryInjective`. |
| Frodock.UsesMpi | run_frodock.py:39-43 | The run uses the MPI builds exactly when np >= 2. |
| Frodock.Launcher | run_frodock.py:49-54 | Computes `mpirun -np str(np)` when the run uses MPI and the empty prefix otherwise. |
| Frodock.DerivePaths | run_frodock.py:30-34 | Computes the stripped input paths, their base names, the four map paths `join(workdir, <base>_W/_E/_DS.mrc)` and the two result paths of lines 70-71; `BaseNames` and `MapFileNames` state their properties. |
| Frodock.VdwMapStage | run_frodock.py:75 | Stage 1: `frodockgrid` on the receptor with `-o` the van der Waals map. |
| Frodock.ElectrostaticMapStage | run_frodock.py:79 | Stage 2: `frodockgrid` on the receptor with `-o` the electrostatic map, `-m 1`, `-t A`. |
| Frodock.ReceptorDesolvationMapStage | run_frodock.py:83 | Stage 3: `frodockgrid` on the receptor with `-o` the receptor desolvation map and `-m 3`. |
| Frodock.LigandDesolvationMapStage | run_frodock.py:87 | Stage 4: `frodockgrid` on the ligand with `-o` the ligand desolvation map and `-m 3`. |
| Frodock.DockingStage | run_frodock.py:91-94 | Stage 5: `frodock` on the two `_ASA.pdb` structures with `-w`, `-e`, `--th 10`, `-d`, `-t A`, `-o` the dock file and `-s ./bin/soap.bin`. |
| Frodock.ClusterStage | run_frodock.py:98 | Stage 6: the serial `frodockcluster` on the dock file and the ligand with `--nc 100` and `-o` the clustered file. |
| Frodock.ViewStage | run_frodock.py:102 | Stage 7: the serial `frodockview` on the clustered file with `-r 1-20`. |
| Frodock.CoordinatesStage | run_frodock.py:106 | Stage 8: the serial `frodockview` on the clustered file with `-r 1-10` and `-p` the ligand. |
| Frodock.CommandsFor | run_frodock.py:75-106 | Renders the eight stages, in order, for given derived paths; `CommandsParse` states that each vector reads back as its stage. |
| Frodock.Commands | run_frodock.py:75-106 | The eight argument vectors the script passes to `execute`: `CommandsFor` on `DerivePaths`. Every hand-off lemma below is stated on it. |
| Argv.Render | run_frodock.py:75-106 | Flattens an invocation into the launcher, the program, the operands and then each flag followed by its value, as the list literals do; `ParseRender` is its inverse. |
| Frodock.BinaryInjective | run_frodock.py:26-28 | Two program paths are equal only for the same tool and the same build. |
| Frodock.BinarySpelling | run_frodock.py:39-47 | The MPI build of a tool is `./bin/<name>_mpi_gcc` and the serial build is `./bin/<name>_gcc`. |
| Frodock.StagesWellFormed | run_frodock.py:75-106 | Every stage has either no launcher or `mpirun -np N`. Its program is a known binary taking as many operands as the stage gives it. |
| Frodock.CommandsParse | run_frodock.py:73-106 | There are exactly eight commands, and each reads back as its stage invocation. |
| Frodock.StageLayout | run_frodock.py:39-54 | With the stage index k counted from 0, stages 0-4 carry the launcher and stages 5-7 none. Stage k runs its tool's binary, the MPI build exactly when k < 5 and np >= 2, with the tool's operand count. |
| Frodock.ProgramOrder | run_frodock.py:73-106 | Eight commands run frodockgrid four times, then frodock, frodockcluster and frodockview twice. The MPI build is used exactly for stages 1-5 when np >= 2. |
| Frodock.MpiSelectionFor | run_frodock.py:39-54 | For any derived paths: with np >= 2, stages 1-5 start with `mpirun -np <np>` followed by the `_mpi_gcc` binary; with np < 2 they start with the `_gcc` binary. |
| Frodock.MpiSelection | run_frodock.py:75-94 | The same prefix and binary selection for the commands the script actually builds. |
| Frodock.SerialTail | run_frodock.py:98-106 | Stages 6-8 start with the `_gcc` binary and never with `mpirun`, whatever np is. |
| Frodock.ArgOfStage | run_frodock.py:75-106 | The value a program reads for a flag from command k is that flag's value in stage k. |
| Frodock.OperandOfStage | run_frodock.py:75-106 | The j-th operand a program reads from command k is the j-th operand of stage k. |
| Frodock.MapStageOptions | run_frodock.py:75-87 | The `-o` of stages 1-4 is the van der Waals, electrostatic, receptor desolvation and ligand desolvation map path. |
| Frodock.DockingStageOptions | run_frodock.py:91-94 | Stage 5's `-w`, `-e`, `-d` and `-o` values are the two receptor maps, the two desolvation maps joined by ',', and the dock file. |
| Frodock.TailStageOptions | run_frodock.py:98-106 | Stage 6 writes the clustered file. Stage 7 reads range 1-20. Stage 8 reads range 1-10 with `-p` the ligand file. |
| Frodock.BaseNames | run_frodock.py:30-34 | Each stripped path plus its extension is the input path. Each base name has no '/', is a tail of the stripped path, and is either the whole stripped path or preceded by '/' in it, so it is the final component. |
| Frodock.MapOutputsFor | run_frodock.py:75-87 | For any derived paths, the `-o` values of commands 1-4 are the four map paths. |
| Frodock.MapFileNames | run_frodock.py:75-87 | Each map path's final component is `<receptor base>_W.mrc`, `_E.mrc`, `_DS.mrc` or `<ligand base>_DS.mrc`. |
| Frodock.MapOutputs | run_frodock.py:75-87 | Commands 1-4 write `join(workdir, <base>_W.mrc / _E.mrc / _DS.mrc)`, and each file lands under exactly that name. |
| Frodock.DockingInputsFor | run_frodock.py:89-94 | For any derived paths: the docking command's `-w` is command 1's `-o`, and its `-e` is command 2's. Its `-d` is command 3's `-o`, ',', then command 4's. Its two operands are the stripped paths with `_ASA.pdb` appended. |
| Frodock.DockingInputs | run_frodock.py:75-94 | The docking command consumes exactly what commands 1-4 produce. Its structures are the extension-stripped inputs plus `_ASA.pdb`. |
| Frodock.ResultChainFor | run_frodock.py:93-106 | For any derived paths, the dock and cluster file hand-off holds, and so do the ranges and the ligand option of the views. |
| Frodock.ResultChain | run_frodock.py:70-71 | Docking writes `join(dat_dir, <name>_dock.dat)`, which clustering reads. Clustering writes `join(dat_dir, <name>_clust_dock.dat)`, which both views read. Stage 7 shows 1-20. Stage 8 shows 1-10 with `-p <ligand>`. |
| Driver.MakeDirsSucceeds | run_frodock.py:68 | `os.makedirs(dat_dir, exist_ok=True)` fails for the empty path and otherwise as the environment decides. |
| Driver.Run | run_frodock.py:56-62 | The events of `execute` over a command list: each command is echoed, a non-zero exit adds a warning and the loop goes on, and a launch failure ends the run as its last event. |
| Driver.Script | run_frodock.py:68-108 | Directory creation, then `Run`, then the finish banner when every command returned; nothing at all when the directory cannot be made. |
| Driver.Trace | run_frodock.py:13-108 | `Script` on the dat directory and the eight `Commands`. |
| Driver.ExecuteAll | run_frodock.py:56-62 | The loop over the commands produces exactly the events and the completion flag of `Run`. |
| Driver.RunScript | run_frodock.py:68-108 | Directory creation, then the commands, then the finish banner, exactly as `Script` describes. |
| Driver.RunFrodock | run_frodock.py:13-108 | One call of `run_frodock` produces exactly `Trace` for the eight commands. |
| Driver.CommandLine | run_frodock.py:110-122 | A wrong argument count gives status 1 and nothing else. Otherwise the run's events are produced, with status 0 exactly when it returns normally. |
| Driver.RunAllLaunched | run_frodock.py:56-62 | When every command starts, all of them are attempted in order and the run completes, whatever the exit statuses. Exactly the non-zero exits are warned about, in order, against an independent filter. |
| Driver.RunCompletes | run_frodock.py:59-62 | The command sequence completes if and only if every command can be started. |
| Driver.RunStopsAtLaunchFailure | run_frodock.py:59-62 | When the first command that cannot be started is the k-th, exactly commands 0..k are attempted, exactly the non-zero exits among commands 0..k-1 are warned about, and the run does not complete. |
| Driver.ScriptRunsEveryCommand | run_frodock.py:68-108 | For any command list: the directory event comes first and the finish banner last, every command is attempted, and the warnings are exactly the failing ones. |
| Driver.PipelineRunsEveryStage | run_frodock.py:68-108 | The same for the eight pipeline commands: all eight run in order whatever their exit statuses. |
| Driver.PipelineNeedsDatDir | run_frodock.py:68 | When the dat directory cannot be created, no stage is attempted and the script fails. |
| Driver.ScriptStopsAtLaunchFailure | run_frodock.py:59-62 | For any command list, a launch failure at k leaves the directory event first, commands 0..k attempted, the non-zero exits before k warned about, and no finish banner. |
| Driver.PipelineStopsAtLaunchFailure | run_frodock.py:75-108 | The same for the eight pipeline commands. |
| Driver.ExitStatus | run_frodock.py:110-122 | With six user arguments, the script returns normally exactly when the directory can be made and every stage can be started. |
| ExampleRun.PdbInDirectory | run_frodock.py:30-34 | A dot-free, '/'-free name under `/a/` with a `.pdb` extension splits into `/a/<name>` and `.pdb`, and the base name of the root is the name. |
| ExampleRun.ExampleReceptorName | run_frodock.py:30-34 | `/a/1WEJ_r_u_ASA.pdb` strips to `/a/1WEJ_r_u_ASA`, whose base name is `1WEJ_r_u_ASA`. |
| ExampleRun.ExampleLigandName | run_frodock.py:30-34 | `/a/1WEJ_l_u_ASA.pdb` strips to `/a/1WEJ_l_u_ASA`, whose base name is `1WEJ_l_u_ASA`. |
| ExampleRun.ExampleVdwMap | run_frodock.py:75 | The van der Waals map of the example is `/work/1WEJ_r_u_ASA_W.mrc`. |
| ExampleRun.ExampleElectrostaticMap | run_frodock.py:79 | The electrostatic map of the example is `/work/1WEJ_r_u_ASA_E.mrc`. |
| ExampleRun.ExampleReceptorDesolvationMap | run_frodock.py:83 | The receptor desolvation map of the example is `/work/1WEJ_r_u_ASA_DS.mrc`. |
| ExampleRun.ExampleLigandDesolvationMap | run_frodock.py:87 | The ligand desolvation map of the example is `/work/1WEJ_l_u_ASA_DS.mrc`. |
| ExampleRun.ExampleDockFile | run_frodock.py:70 | The dock file of the example is `/out/abc123_dock.dat`. |
| ExampleRun.ExamplePaths | run_frodock.py:30-34 | `DerivePaths` on the example inputs gives those base names, map paths and dock file. |
| ExampleRun.ExampleDockingCommand | run_frodock.py:91-94 | The example's docking command reads `-w /work/1WEJ_r_u_ASA_W.mrc`, `-e /work/1WEJ_r_u_ASA_E.mrc`, `-d /work/1WEJ_r_u_ASA_DS.mrc,/work/1WEJ_l_u_ASA_DS.mrc` and writes `-o /out/abc123_dock.dat`. |

## Left out

- generate_yaml_files.py holds no code: it is a static job-manifest document with fixed values, so nothing in it is modelled.
- Process spawning is not modelled. The FRODOCK programs are not modelled either. Each stage's result comes from an oracle: `Exited(code)` or `LaunchFailed`.
- Printing and logging are modelled only as three events: the echoed command (`Attempted`), the non-zero-exit warning (`Warned`, with the command and status), and the final banner (`Finished`). Their wording, the base-name and MPI banners and the log lines are left out.
- `int()` parsing of the fifth argument is not modelled. `CommandLine` receives the processor count already parsed. A fifth argument that is not an integer (a `ValueError`, status 1) is outside the model.
- `os.makedirs` is a condition, not a filesystem effect. It fails for the empty path and otherwise as a boolean oracle says. Existing directories are fine (`exist_ok=True`).
- The path helpers follow the POSIX flavour on text strings only. Windows separators and byte-string paths are not modelled.
- `DerivePaths` computes each joined map path once, and every stage uses that value. The source writes the same `join` expressions again in stage 5. The values are identical because the expressions are pure.
- `Argv.Parse` and `Lookup` are a reading convention, not part of the source: a flag's value is the next argument, and the first occurrence wins. They state "stage 5 reads what stage 1 wrote" as equalities between argument positions.
- The traceback that Python prints for an uncaught error is not modelled, nor are interruptions such as Ctrl-C. Only the resulting status 1 is.
