# md-flow pipeline bookkeeping, modelled in Dafny

md-flow prepares a protein for molecular dynamics with GROMACS. It fetches a
predicted structure from AlphaFold, converts it with `pdb2gmx`, enlarges and
solvates the box, adds ions, then runs minimisation, NVT and NPT
equilibration and a production run. Every step after the AlphaFold lookup
(a plain HTTP request) is one or more GROMACS calls (through gmxapi), with
deterministic bookkeeping around them:

- file names get their format suffix and are joined onto the working directory;
- the flag-to-path maps given to each tool are assembled;
- the compilation input is chosen by the type of the incoming record;
- the output names of each run are planned and its step count is patched;
- the records handed to the next stage are built from those maps;
- the AlphaFold answer is validated.

This project models that bookkeeping and proves what it guarantees. Each
GROMACS call is an opaque value (`Gmx.CommandOp`, `Gmx.MdrunOp`) that
records its arguments and its input and output flag maps.

Modules follow the source files:

- `Base` (base.dfy): `Option`, the failure outcome, `Result`, the
  command-line flags, and Python truthiness of an optional integer.
- `PathNames` (paths.dfy): `os.path.join`, the suffix normalisation in
  both of its forms, and `str.split(".")[0]`.
- `Gmx` (gmx.dfy): gmxapi operations as values, and the run input read
  from a `.tpr` with an optional step-count patch.
- `Models` (models.dfy): the dataclass records of `md_flow/models.py` and
  their factories.
- `Alphafold` (alphafold.dfy): the response checks shared by
  `md_flow/steps.py` and `md_flow/flow.py`.
- `Steps` (steps.dfy): the stage functions of `md_flow/steps.py`.
  `md_grompp`, `standard_md_run` and the four MD stages are methods,
  because the source builds a dict and inserts into it, and reassigns the
  run input. The other steps are functions.
- `Flow` (flow.dfy): the older eager `pdb2gmx` and solvation of
  `md_flow/flow.py`, each related by a lemma to its counterpart in `Steps`.

Ambient state is passed in explicitly as `Steps.Context`. It holds the
working directory (`os.getcwd()`), the bundled template directory (the
directory of `md_inputs`) and the set of files that exist (`os.path.isfile`).
What the engine reports after a run (its output directory and trajectory
path) is a parameter, `Gmx.EngineReport`.

The model follows the code, including these points a reader might not expect:

- No stage checks that declared outputs exist.
- Errors are bare exceptions, key errors or attribute errors, not typed
  errors. `Base.Failure` only tags which guard fired.
- `md_grompp` is called eagerly inside each delayed stage.
- The compilation stages (`md_grompp` and the four MD stages) accept any
  of the three record types; they are not limited to the types in their
  annotations.
- The solvation step in `md_flow/steps.py` never passes the protein's
  topology to any tool. It declares `topol.top` in the working directory as
  the topology output instead (`Steps.HydrateIgnoresTopology`).
- The `nsteps` of every run-input record stays at 10000, whatever step
  count the run itself is patched to. For production without an override,
  the template's count is used while the record still says 10000.

## Model

| member | source | states |
|---|---|---|
| `PathNames.Join` | md_flow/steps.py:96-99 | The joined path ends with the name; an absolute name replaces the directory |
| `PathNames.JoinRelative` | md_flow/steps.py:96-99 | A relative name is placed inside the directory with at most one separator; with a non-empty directory not ending in `/` the result is exactly `dir + "/" + name` |
| `PathNames.JoinInjective` | md_flow/steps.py:96-99 | Two relative names joined onto the same directory give the same path only if they are equal |
| `PathNames.WithSuffix` | md_flow/steps.py:84-95 | The result always ends with the format suffix; the suffix is appended exactly when the name does not already end with it, otherwise the name is unchanged |
| `PathNames.WithSuffixIdempotent` | md_flow/steps.py:84-95 | Normalising twice equals normalising once |
| `PathNames.LastFour` | md_flow/flow.py:79 | Python's `s[-4:]` has length `min(len(s), 4)` and is a suffix of `s` |
| `PathNames.WithSuffixUnguarded` | md_flow/flow.py:79-90 | The suffix test without a length guard returns the name unchanged or with the suffix appended |
| `PathNames.UnguardedAgrees` | md_flow/flow.py:79-90 | The test without a length guard gives the same name as the guarded test for every name, so its result also ends with the suffix |
| `PathNames.FirstField` | md_flow/steps.py:223 | `s.split(".")[0]` is a prefix of `s` with no dot, followed in `s` by a dot or by the end |
| `PathNames.FirstFieldAtDot` | md_flow/steps.py:259 | For `a` without a dot and `rest` starting with a dot, `(a + rest).split(".")[0]` is `a` |
| `PathNames.FirstFieldUndotted` | md_flow/steps.py:259 | A name without a dot is its own first field |
| `Base.TruthyInt` | md_flow/steps.py:343 | `if nsteps:` is false for `None` and `0` and true for every other integer |
| `Base.FlagNamesDistinct` | md_flow/steps.py:290-292 | Distinct flags have distinct command-line spellings, so maps keyed by flag lose nothing |
| `Gmx.OutputFile` | md_flow/models.py:18-19 | Looking up an output flag succeeds exactly when the operation declared it, yields the declared path, and otherwise is a key error on that flag |
| `Models.ProteinFromTool` | md_flow/models.py:16-26 | `from_pdb2gmx` and `from_genion` take the structure from `-o` and the topology from `-p`; success iff both are declared; a missing `-o` is reported before a missing `-p` |
| `Models.FromGrompp` | md_flow/models.py:39-47 | Structure, topology and settings come from `-c`, `-p` and `-f`, and the compiled input from grompp's `-o`; any of these missing fails; the restraint file is absent exactly when `-r` is; the step count is always the default 10000; the operation is kept |
| `Models.StageRecordDefaults` | md_flow/models.py:50-71 | The steep, NVT and NPT input records default to `steep.mdp`, `nvt_eq.mdp` and `npt_eq.mdp` with no restraint file |
| `Alphafold.PredictionUrl` | md_flow/steps.py:28-29 | The request URL is the API base plus `/prediction/` and ends with the identifier |
| `Alphafold.PredictionUrlInjective` | md_flow/steps.py:28-31 | Different identifiers are requested at different URLs |
| `Alphafold.Truthy` | md_flow/steps.py:35-44 | The response tests `not response_info` and `not pdb_url` treat exactly `None`, `False`, `0`, `""`, `[]` and `{}` as false |
| `Alphafold.PdbUrl` | md_flow/flow.py:32-42 | The lookup succeeds exactly when the response is a non-empty list whose first element is an object with a truthy `pdbUrl`, and then yields that `pdbUrl`; a falsy response fails as empty; a first object without a truthy `pdbUrl` fails as missing URL |
| `Alphafold.PdbUrlOnlyFirstEntry` | md_flow/steps.py:42 | Responses that agree on their first entry are accepted or refused together and yield the same URL |
| `Steps.GetAlphafoldPdb` | md_flow/steps.py:28-56 | Fails exactly when the response checks fail, with their failure; otherwise queries the identifier's prediction URL, fetches the first entry's `pdbUrl`, and writes to `temp_input.pdb` in the working directory |
| `Steps.ConversionOutputs` | md_flow/steps.py:84-104 | The `pdb2gmx` output map has exactly `-o`, `-p`, `-i`, each the normalised name joined onto the working directory |
| `Steps.ConversionOutputFormats` | md_flow/steps.py:84-99 | The `-o`, `-p` and `-i` outputs end with `.gro`, `.top` and `.itp` whatever names were given |
| `Steps.ConversionOutputsDistinct` | md_flow/steps.py:104 | The three conversion outputs are three different files |
| `Steps.Pdb2gmx` | md_flow/steps.py:59-108 | Exactly one operation `gmx pdb2gmx -ff amber03 -water tip3p` with `-f` the given PDB file and the normalised outputs; the returned record is its `-o` structure and `-p` topology |
| `Steps.MdpPath` | md_flow/steps.py:325-329 | A template path ends with the template name and, for a relative name, lies in the template directory |
| `Steps.HydrateSimulationBox` | md_flow/steps.py:113-184 | Each operation is stated whole: all run `gmx`, and only genion has stdin. editconf `-c -d 1.5` on the protein structure, then solvate `-cs spc216` on editconf's `-o`. A missing `ions.mdp` fails after these two operations and before any grompp. Otherwise grompp compiles solvate's `-o`/`-p` with `ions.mdp`, genion `-neutral` reads grompp's `-o` with stdin `13`, and the record is genion's `-o`/`-p` |
| `Steps.HydrateIgnoresTopology` | md_flow/steps.py:129-184 | Solvation depends only on the input's structure file, never on its topology file |
| `Steps.GromppSource.Configuration` | md_flow/steps.py:290 | The structure file `input.gro_file` is read only from an accepted record. For a completed run it is the run's final structure, not the structure its run input started from |
| `Steps.TopologyOf` | md_flow/steps.py:282-289 | A completed run's topology is its run input's `top_file`; a run-input or protein record uses its own `top_file`; any other value is refused as an unknown input type |
| `Steps.MdGrompp` | md_flow/steps.py:272-304 | The grompp operation runs `gmx grompp` without stdin. An unknown input fails as such even when the template is missing; a known input with a missing template fails before any grompp operation; otherwise the input map has keys `-f`, `-c`, `-p` (plus `-r` iff restraints, equal to `-c`), `-c` is the input's own structure, the topology follows the dispatch, the output is `-o` = the tpr name, and `itp_file == gro_file` iff restraints were requested |
| `Steps.MdrunOutFiles` | md_flow/steps.py:307-322 | The structure and energy paths end with the given names and, for relative names, lie in the run directory |
| `Steps.RunArgs` | md_flow/steps.py:346-353 | For prefix `p` the runtime outputs are exactly `-o` = `p.trr`, `-e` = `p.edr`, `-c` = `p.gro` |
| `Steps.RunArgsDistinct` | md_flow/steps.py:346-353 | A run's trajectory, energy and structure outputs are three different files |
| `Steps.StandardMdRun` | md_flow/steps.py:332-371 | The run keeps its run input unchanged. mdrun's input is exactly that input's tpr read once, wrapped in one step-count patch to `nsteps` iff `nsteps` is truthy (not `None`, not 0). The runtime outputs are those of the prefix. The structure and energy paths are the engine's directory joined with `p.gro` and `p.edr`; the trajectory is what the engine reports |
| `Steps.CompileAndRun` | md_flow/steps.py:213-223 | The `md_grompp`-then-`standard_md_run` pair each stage performs: an unknown input or a missing template fails with that failure, and otherwise the run is exactly what compiling the input under the stage's plan and running it yields (`Steps.Realises`): every field of the run input is fixed, including the recorded grompp operation (`Steps.CompiledBy`: `-f` the template, `-c` the input's structure, `-p` its topology, `-r` equal to `-c` exactly when restraints are on), and the run keeps the engine's report |
| `Steps.OptimizeConfiguration` | md_flow/steps.py:187-201 | Fails iff the input type is unknown or `steep.mdp` is missing, with that failure. Otherwise it compiles `em.tpr` from `steep.mdp` without restraints, patches 10000 steps and writes `em.*`. The run input records the grompp call that compiled it (`Steps.CompiledBy`), and the run keeps the engine's report |
| `Steps.TprStem` | md_flow/steps.py:214-246 | For a stem without a dot, `(stem + ".tpr").split(".")[0]` is the stem, so `nvt_eq.tpr` and `npt_eq.tpr` give the prefixes `nvt_eq` and `npt_eq` |
| `Steps.MdTempEquilibrate` | md_flow/steps.py:204-223 | Fails iff the input type is unknown or the settings template is missing. Otherwise it compiles `nvt_eq.tpr` with restraints on the input's own structure, patches 10000 steps and writes `nvt_eq.*`. The run input records the grompp call that compiled it (`Steps.CompiledBy`), and the run keeps the engine's report |
| `Steps.MdPressureEquilibrate` | md_flow/steps.py:226-246 | Fails iff the input type is unknown or the settings template is missing. Otherwise it compiles `npt_eq.tpr` with restraints on the input's own structure, patches 10000 steps and writes `npt_eq.*`. The run input records the grompp call that compiled it (`Steps.CompiledBy`), and the run keeps the engine's report |
| `Steps.ProductionTprName` | md_flow/steps.py:259 | The production input name is a stem plus `.tpr`, where the stem is the longest dot-free prefix of the settings name (the part before its first dot, or the whole name when it has none) |
| `Steps.ProductionTprNameDotted` | md_flow/steps.py:259 | A settings name `a.b` whose `a` has no dot compiles to `a.tpr` |
| `Steps.ProductionTprNameDefault` | md_flow/steps.py:250-259 | With the default settings `prod.mdp` the production input is `prod.tpr` |
| `Steps.MdRun` | md_flow/steps.py:249-266 | Fails iff the input type is unknown or the settings template is missing. Otherwise it compiles the settings' first field plus `.tpr` without restraints and writes `prod.*`. The step count is patched only when `nsteps` is truthy, so by default the template's count is kept. The run input records the grompp call that compiled it (`Steps.CompiledBy`), and the run keeps the engine's report |
| `Flow.Pdb2gmx` | md_flow/flow.py:48-111 | The eager conversion issues exactly the operation of `Steps.Pdb2gmx` reading `temp_input.pdb` in the working directory; its `-o`, `-p`, `-i` outputs end with `.gro`, `.top`, `.itp` |
| `Flow.HydrateSimulationBox` | md_flow/flow.py:116-152 | Both operations are stated whole and run `gmx` without stdin. A conversion without `-o` is a key error before any operation. Otherwise it issues exactly editconf `-c -d 1.5` on that structure and solvate `-cs spc216` on editconf's `-o`, declaring only `-o`, with no ion step; the result is solvate's outputs |
| `Flow.HydrateAgreesWithSteps` | md_flow/flow.py:132-152 | The eager solvation's box edit equals the staged one; its solvate differs only in that the staged one also declares `-p` = `topol.top` |

## Left out

- HTTP requests to AlphaFold and the write of `temp_input.pdb` are I/O. The model validates an abstract decoded response and returns the URL that would be fetched and the path that would be written.
- JSON numbers are integers only; floating-point values in a response are not modelled.
- No gmxapi operation is executed: `commandline_operation`, `read_tpr`, `modify_input`, `mdrun`, `.run()` and `.result()` are foreign calls. An output flag resolves to the path declared for it, and the engine's run directory and trajectory are parameters.
- The deferred execution with dask `@delayed` is left out; the stages are modelled as the computations they defer.
- `Steps.HydrateSimulationBox` takes only a `ProteinInput`. The source reads just `protein_gro.gro_file` (md_flow/steps.py:130), so any record with that attribute would do; `Steps.HydrateIgnoresTopology` shows that nothing but the structure file matters.
- Logging is left out. The genion stdin `13` is kept only as the constant `Steps.SolventGroup`.
- The `pass` stubs `optimize_configuration`, `md_equilibrate` and `md_run` in `md_flow/flow.py` do nothing and are not modelled.
- Command-line flags are an enumeration (`Base.Flag`) rather than strings; `Base.FlagNamesDistinct` shows that this loses nothing.
- tests/test_flow.py is not modelled. It reads files and parses box dimensions as floats. Its suffix assertions are covered by `Flow.Pdb2gmx`.
