/** The stage functions: each stage assembles the file names and flag maps
    for one or more engine operations and wraps what they report into the
    records of `Models`. Working directory, template directory and the set
    of files present on disk are passed in as a `Context`. */
module Steps {
  import opened Base
  import opened PathNames
  import opened Gmx
  import opened Models
  import opened Alphafold

  /** The ambient state a stage reads: the working directory, the directory
      holding the bundled parameter templates, and the files that exist. */
  datatype Context = Context(cwd: string, templateDir: string, existing: set<string>)

  /** Operations a stage issued, and what it returned or why it failed. */
  datatype Staged<T> = Staged(ops: seq<CommandOp>, outcome: Result<T>)

  /** Interactive answer given to ion placement: the solvent group's index. */
  const SolventGroup := "13"

  const PdbFileName := "temp_input.pdb"

  // ------------------------------------------------------------------
  // Structure lookup
  // ------------------------------------------------------------------

  /** What the lookup step asks for and where it leaves the structure. */
  datatype PdbFetch = PdbFetch(query: string, pdbUrl: Json, pdbPath: string)

  /** The lookup step: query the prediction route for the identifier,
      validate the answer, then fetch the first entry's `pdbUrl` into
      `temp_input.pdb` in the working directory. */
  function GetAlphafoldPdb(ctx: Context, uniprotId: string, response: Json): (r: Result<PdbFetch>)
    ensures r.Ok? <==> HasPdbUrl(response)
    ensures r.Err? ==> r.failure == PdbUrl(response).failure
    ensures r.Ok? ==>
      && r.value.query == PredictionUrl(uniprotId)
      && r.value.pdbUrl == response.items[0].fields["pdbUrl"]
      && r.value.pdbPath == Join(ctx.cwd, PdbFileName)
  {
    var query := PredictionUrl(uniprotId);
    match PdbUrl(response)
    case Err(f) => Err(f)
    case Ok(url) => Ok(PdbFetch(query, url, Join(ctx.cwd, PdbFileName)))
  }

  // ------------------------------------------------------------------
  // Structure conversion
  // ------------------------------------------------------------------

  const Pdb2gmxArgs: seq<string> := ["pdb2gmx", "-ff", "amber03", "-water", "tip3p"]

  /** The output map of a conversion, given its three paths. */
  function OutputMap(gro: string, top: string, itp: string): (m: map<Flag, string>)
    ensures m.Keys == {O, P, I}
    ensures m[O] == gro && m[P] == top && m[I] == itp
  {
    map[O := gro, P := top, I := itp]
  }

  /** The three output paths of the conversion: each name gets its format
      suffix if missing and is joined onto the working directory. */
  function ConversionOutputs(cwd: string, groName: string, topName: string, itpName: string): (m: map<Flag, string>)
    ensures m.Keys == {O, P, I}
    ensures m[O] == Join(cwd, WithSuffix(groName, Gro))
    ensures m[P] == Join(cwd, WithSuffix(topName, Top))
    ensures m[I] == Join(cwd, WithSuffix(itpName, Itp))
  {
    OutputMap(Join(cwd, WithSuffix(groName, Gro)), Join(cwd, WithSuffix(topName, Top)),
              Join(cwd, WithSuffix(itpName, Itp)))
  }

  /** Each conversion output carries its format suffix, whatever names were given. */
  lemma ConversionOutputFormats(cwd: string, groName: string, topName: string, itpName: string)
    ensures var m := ConversionOutputs(cwd, groName, topName, itpName);
      EndsWith(m[O], Suffix(Gro)) && EndsWith(m[P], Suffix(Top)) && EndsWith(m[I], Suffix(Itp))
  {
    var m := ConversionOutputs(cwd, groName, topName, itpName);
    EndsWithTransitive(m[O], WithSuffix(groName, Gro), Suffix(Gro));
    EndsWithTransitive(m[P], WithSuffix(topName, Top), Suffix(Top));
    EndsWithTransitive(m[I], WithSuffix(itpName, Itp), Suffix(Itp));
  }

  /** The three conversion outputs are three different files. */
  lemma ConversionOutputsDistinct(cwd: string, groName: string, topName: string, itpName: string)
    ensures var m := ConversionOutputs(cwd, groName, topName, itpName);
      m[O] != m[P] && m[O] != m[I] && m[P] != m[I]
  {
    var m := ConversionOutputs(cwd, groName, topName, itpName);
    ConversionOutputFormats(cwd, groName, topName, itpName);
    DistinctSuffixes(m[O], m[P], Gro, Top);
    DistinctSuffixes(m[O], m[I], Gro, Itp);
    DistinctSuffixes(m[P], m[I], Top, Itp);
  }

  /** The conversion step: one `pdb2gmx` call with the fixed force field and
      water model, reading `pdbFile`; the protein record is its `-o`
      structure and `-p` topology. */
  function Pdb2gmx(ctx: Context, pdbFile: string,
                   groName: string := "conf", topName: string := "topol", itpName: string := "posre")
    : (r: Staged<ProteinInput>)
    ensures |r.ops| == 1 && r.outcome.Ok?
    ensures r.ops[0] == CommandOp("gmx", Pdb2gmxArgs, map[F := pdbFile],
                                  ConversionOutputs(ctx.cwd, groName, topName, itpName), None)
    ensures r.outcome.value.groFile == Join(ctx.cwd, WithSuffix(groName, Gro))
    ensures r.outcome.value.topFile == Join(ctx.cwd, WithSuffix(topName, Top))
  {
    var op := CommandOp("gmx", Pdb2gmxArgs, map[F := pdbFile],
                        ConversionOutputs(ctx.cwd, groName, topName, itpName), None);
    Staged([op], ProteinFromTool(op))
  }

  // ------------------------------------------------------------------
  // Solvation and neutralisation
  // ------------------------------------------------------------------

  /** Full path of a bundled parameter template. */
  function MdpPath(templateDir: string, fileName: string): (r: string)
    ensures EndsWith(r, fileName)
    ensures !IsAbsolute(fileName) ==> StartsWith(r, templateDir)
  {
    Join(templateDir, fileName)
  }

  /** Box enlargement, solvation, ion-input compilation and ion placement,
      each consuming the previous operation's declared output. The ion
      template is checked after the first two operations are issued and
      before compilation; if it is missing nothing further is issued. */
  function HydrateSimulationBox(ctx: Context, protein: ProteinInput): (r: Staged<ProteinInput>)
    ensures r.outcome.Ok? <==> MdpPath(ctx.templateDir, "ions.mdp") in ctx.existing
    ensures r.outcome.Err? ==>
      |r.ops| == 2 && r.outcome.failure == MdpNotFound(MdpPath(ctx.templateDir, "ions.mdp"))
    ensures r.outcome.Ok? ==> |r.ops| == 4
    ensures |r.ops| >= 2
    ensures var boxed := Join(ctx.cwd, "empty_protein.gro");
      r.ops[0] == CommandOp("gmx", ["editconf", "-c", "-d", "1.5"], map[F := protein.groFile], map[O := boxed], None)
    ensures var boxed := Join(ctx.cwd, "empty_protein.gro");
            var solvated := Join(ctx.cwd, "solvated_protein.gro");
            var top := Join(ctx.cwd, "topol.top");
      r.ops[1] == CommandOp("gmx", ["solvate"], map[Cs := "spc216", Cp := boxed], map[O := solvated, P := top], None)
    ensures r.outcome.Ok? ==>
      var solvated := Join(ctx.cwd, "solvated_protein.gro");
      var top := Join(ctx.cwd, "topol.top");
      var ions := Join(ctx.cwd, "ions.tpr");
      var neutral := Join(ctx.cwd, "neutral.gro");
      && r.ops[2] == CommandOp("gmx", ["grompp"], map[F := MdpPath(ctx.templateDir, "ions.mdp"), C := solvated, P := top],
                               map[O := ions], None)
      && r.ops[3] == CommandOp("gmx", ["genion", "-neutral"], map[S := ions], map[O := neutral, P := top],
                               Some(SolventGroup))
      && r.outcome.value == ProteinInput(neutral, top)
  {
    var boxed := Join(ctx.cwd, "empty_protein.gro");
    var solvated := Join(ctx.cwd, "solvated_protein.gro");
    var top := Join(ctx.cwd, "topol.top");
    var edit := CommandOp("gmx", ["editconf", "-c", "-d", "1.5"], map[F := protein.groFile], map[O := boxed], None);
    var solv := CommandOp("gmx", ["solvate"], map[Cs := "spc216", Cp := boxed], map[O := solvated, P := top], None);
    var mdpFile := MdpPath(ctx.templateDir, "ions.mdp");
    if mdpFile !in ctx.existing then
      Staged([edit, solv], Err(MdpNotFound(mdpFile)))
    else
      var ions := Join(ctx.cwd, "ions.tpr");
      var neutral := Join(ctx.cwd, "neutral.gro");
      var grompp := CommandOp("gmx", ["grompp"], map[F := mdpFile, C := solvated, P := top], map[O := ions], None);
      var genion := CommandOp("gmx", ["genion", "-neutral"], map[S := ions], map[O := neutral, P := top],
                              Some(SolventGroup));
      Staged([edit, solv, grompp, genion], ProteinFromTool(genion))
  }

  /** Solvation reads only the structure of its input: the topology file
      it is given is never passed to any operation. */
  lemma HydrateIgnoresTopology(ctx: Context, p: ProteinInput, q: ProteinInput)
    requires p.groFile == q.groFile
    ensures HydrateSimulationBox(ctx, p) == HydrateSimulationBox(ctx, q)
  {
  }

  // ------------------------------------------------------------------
  // Run-input compilation
  // ------------------------------------------------------------------

  /** What a compilation may start from: a completed run, a run-input
      record, a protein record, or any other value. */
  datatype GromppSource =
    | FromMDRun(run: MDRun)
    | FromMDRunInput(runInput: MDRunInput)
    | FromProteinInput(protein: ProteinInput)
    | Unsupported
  {
    /** The structure file the value carries (`input.gro_file`). */
    function Configuration(): (r: string)
      requires !Unsupported?
      ensures FromMDRun? ==> r == run.groFile
      ensures FromMDRunInput? ==> r == runInput.groFile
      ensures FromProteinInput? ==> r == protein.groFile
    {
      match this
      case FromMDRun(run) => run.groFile
      case FromMDRunInput(ri) => ri.groFile
      case FromProteinInput(p) => p.groFile
    }
  }

  /** Topology of an accepted source: a run's comes from the run-input it
      ran, the records carry their own; anything else is refused. */
  function TopologyOf(input: GromppSource): (r: Result<string>)
    ensures r.Ok? <==> !input.Unsupported?
    ensures r.Err? ==> r.failure == UnknownInputType
    ensures input.FromMDRun? ==> r.value == input.run.mdInput.topFile
    ensures input.FromMDRunInput? ==> r.value == input.runInput.topFile
    ensures input.FromProteinInput? ==> r.value == input.protein.topFile
  {
    match input
    case FromMDRun(run) => Ok(run.mdInput.topFile)
    case FromMDRunInput(ri) => Ok(ri.topFile)
    case FromProteinInput(p) => Ok(p.topFile)
    case Unsupported => Err(UnknownInputType)
  }

  /** `op` is the grompp call that compiles `input` with template `mdpFile`
      into `tprName`: `-f` is the template, `-c` the input's structure, `-p`
      its topology, and `-r` (present exactly when `posres`) repeats `-c`. */
  predicate CompiledBy(op: CommandOp, input: GromppSource, mdpFile: string, tprName: string, posres: bool)
    requires !input.Unsupported?
  {
    && op.executable == "gmx"
    && op.args == ["grompp"]
    && op.outputs == map[O := tprName]
    && op.stdin == None
    && op.inputs.Keys == (if posres then {F, C, P, R} else {F, C, P})
    && op.inputs[F] == mdpFile
    && op.inputs[C] == input.Configuration()
    && op.inputs[P] == TopologyOf(input).value
    && (posres ==> op.inputs[R] == op.inputs[C])
  }

  /** Compile a run-input. The source type is dispatched first, then the
      input map `-f`/`-c`/`-p` is built and `-r` added (equal to `-c`) when
      restraints are requested, then the template is checked; no grompp
      operation exists unless every check passed. */
  method MdGrompp(input: GromppSource, ctx: Context, mdpFile: string,
                  tprFileName: string := "topol.tpr", posres: bool := false)
    returns (r: Result<MDRunInput>)
    ensures input.Unsupported? ==> r == Err(UnknownInputType)
    ensures !input.Unsupported? && mdpFile !in ctx.existing ==> r == Err(MdpNotFound(mdpFile))
    ensures r.Ok? <==> !input.Unsupported? && mdpFile in ctx.existing
    ensures r.Ok? ==>
      && r.value.tprFile == tprFileName
      && r.value.groFile == input.Configuration()
      && r.value.topFile == TopologyOf(input).value
      && r.value.settingsFile == Some(mdpFile)
      && r.value.itpFile == (if posres then Some(input.Configuration()) else None)
      && r.value.nsteps == DefaultNsteps
      && r.value.grompp.Some?
      && CompiledBy(r.value.grompp.value, input, mdpFile, tprFileName, posres)
      && (r.value.itpFile == Some(r.value.groFile) <==> posres)
  {
    var top := TopologyOf(input);
    if top.Err? {
      return Err(top.failure);
    }
    var gro := input.Configuration();
    var inputFiles := map[F := mdpFile, C := gro, P := top.value];
    if posres {
      inputFiles := inputFiles[R := gro];
    }
    if mdpFile !in ctx.existing {
      return Err(MdpNotFound(mdpFile));
    }
    var grompp := CommandOp("gmx", ["grompp"], inputFiles, map[O := tprFileName], None);
    r := FromGrompp(inputFiles, grompp);
  }

  // ------------------------------------------------------------------
  // Standard run
  // ------------------------------------------------------------------

  /** Full paths of a run's structure and energy outputs inside the
      directory the engine reports. */
  function MdrunOutFiles(directory: string, groFileName: string, energyFileName: string): (r: (string, string))
    ensures EndsWith(r.0, groFileName) && EndsWith(r.1, energyFileName)
    ensures !IsAbsolute(groFileName) ==> StartsWith(r.0, directory)
    ensures !IsAbsolute(energyFileName) ==> StartsWith(r.1, directory)
  {
    (Join(directory, groFileName), Join(directory, energyFileName))
  }

  /** The runtime outputs of a run named by `prefix`: trajectory, energy
      and final structure. */
  function RunArgs(prefix: string): (m: map<Flag, string>)
    ensures m.Keys == {O, E, C}
    ensures m[O] == prefix + ".trr" && m[E] == prefix + ".edr" && m[C] == prefix + ".gro"
  {
    map[O := prefix + ".trr", E := prefix + ".edr", C := prefix + ".gro"]
  }

  /** A run writes its three outputs to three different files. */
  lemma RunArgsDistinct(prefix: string)
    ensures var m := RunArgs(prefix); m[O] != m[E] && m[O] != m[C] && m[E] != m[C]
  {
    var m := RunArgs(prefix);
    var n := |prefix|;
    assert m[O][n + 1] == 't' && m[E][n + 1] == 'e' && m[C][n + 1] == 'g';
  }

  /** Read the compiled input, patch its step count when `nsteps` is truthy
      (neither absent nor zero), run it with the outputs named by
      `filePrefix`, and record the run. */
  method StandardMdRun(mdInput: MDRunInput, engine: EngineReport,
                       filePrefix: string := "run", nsteps: Option<int> := Some(DefaultNsteps))
    returns (run: MDRun)
    ensures run.mdInput == mdInput
    ensures run.mdObject.input == if TruthyInt(nsteps) then ModifyNsteps(ReadTpr(mdInput.tprFile), nsteps.value)
                                  else ReadTpr(mdInput.tprFile)
    ensures run.mdObject.runtimeArgs == RunArgs(filePrefix)
    ensures run.mdObject.report == engine
    ensures run.groFile == Join(engine.directory, filePrefix + ".gro")
    ensures run.energy == Join(engine.directory, filePrefix + ".edr")
    ensures run.trajectory == engine.trajectory
  {
    var tprInput := ReadTpr(mdInput.tprFile);
    if nsteps.Some? && nsteps.value != 0 {
      tprInput := ModifyNsteps(tprInput, nsteps.value);
    }
    var groOutput := filePrefix + ".gro";
    var edrOutput := filePrefix + ".edr";
    var trajOutput := filePrefix + ".trr";
    var rargs := map[O := trajOutput, E := edrOutput, C := groOutput];
    var md := MdrunOp(tprInput, rargs, engine);
    var (groPath, edrPath) := MdrunOutFiles(md.report.directory, groOutput, edrOutput);
    run := MDRun(mdInput, groPath, md, edrPath, md.report.trajectory);
  }

  // ------------------------------------------------------------------
  // Stages
  // ------------------------------------------------------------------

  /** How a stage compiles and runs: template, compiled-input name,
      restraints, output prefix and step-count override. */
  datatype Plan = Plan(mdpFile: string, tprName: string, posres: bool, prefix: string, nsteps: Option<int>)

  /** `run` is what compiling `input` under `plan` and running it yields. */
  predicate Realises(run: MDRun, input: GromppSource, plan: Plan, engine: EngineReport)
    requires !input.Unsupported?
  {
    && run.mdInput.tprFile == plan.tprName
    && run.mdInput.groFile == input.Configuration()
    && run.mdInput.topFile == TopologyOf(input).value
    && run.mdInput.settingsFile == Some(plan.mdpFile)
    && run.mdInput.itpFile == (if plan.posres then Some(input.Configuration()) else None)
    && run.mdInput.nsteps == DefaultNsteps
    && run.mdInput.grompp.Some?
    && CompiledBy(run.mdInput.grompp.value, input, plan.mdpFile, plan.tprName, plan.posres)
    && run.mdObject.input == (if TruthyInt(plan.nsteps) then ModifyNsteps(ReadTpr(plan.tprName), plan.nsteps.value)
                              else ReadTpr(plan.tprName))
    && run.mdObject.runtimeArgs == RunArgs(plan.prefix)
    && run.mdObject.report == engine
    && run.groFile == Join(engine.directory, plan.prefix + ".gro")
    && run.energy == Join(engine.directory, plan.prefix + ".edr")
    && run.trajectory == engine.trajectory
  }

  /** Compile `input` under `plan` and run the result: every stage is this
      pair of calls with its own plan. */
  method CompileAndRun(input: GromppSource, ctx: Context, engine: EngineReport, plan: Plan)
    returns (r: Result<MDRun>)
    ensures input.Unsupported? ==> r == Err(UnknownInputType)
    ensures !input.Unsupported? && plan.mdpFile !in ctx.existing ==> r == Err(MdpNotFound(plan.mdpFile))
    ensures r.Ok? <==> !input.Unsupported? && plan.mdpFile in ctx.existing
    ensures r.Ok? ==> Realises(r.value, input, plan, engine)
  {
    var tprFile := MdGrompp(input, ctx, plan.mdpFile, tprFileName := plan.tprName, posres := plan.posres);
    if tprFile.Err? {
      return Err(tprFile.failure);
    }
    var run := StandardMdRun(tprFile.value, engine, filePrefix := plan.prefix, nsteps := plan.nsteps);
    r := Ok(run);
  }

  /** Steepest-descent minimisation: `steep.mdp`, `em.tpr`, no restraints,
      outputs `em.*`, step count patched to the default. */
  method OptimizeConfiguration(solvOutput: GromppSource, ctx: Context, engine: EngineReport)
    returns (r: Result<MDRun>)
    ensures solvOutput.Unsupported? ==> r == Err(UnknownInputType)
    ensures !solvOutput.Unsupported? && MdpPath(ctx.templateDir, "steep.mdp") !in ctx.existing ==> r == Err(MdpNotFound(MdpPath(ctx.templateDir, "steep.mdp")))
    ensures r.Ok? <==> !solvOutput.Unsupported? && MdpPath(ctx.templateDir, "steep.mdp") in ctx.existing
    ensures r.Ok? ==> Realises(r.value, solvOutput,
                               Plan(MdpPath(ctx.templateDir, "steep.mdp"), "em.tpr", false, "em", Some(DefaultNsteps)),
                               engine)
  {
    var mdpFile := MdpPath(ctx.templateDir, "steep.mdp");
    r := CompileAndRun(solvOutput, ctx, engine, Plan(mdpFile, "em.tpr", false, "em", Some(DefaultNsteps)));
  }

  /** Stems of the equilibration stages' compiled inputs. */
  const NvtStem: string := "nvt_eq"
  const NptStem: string := "npt_eq"

  /** Stem of the production stage's default settings. */
  const ProdStem: string := "prod"

  /** A compiled-input name `stem.tpr` cuts back to `stem` at its first dot. */
  lemma TprStem(stem: string)
    requires '.' !in stem
    ensures FirstField(stem + ".tpr") == stem
  {
    FirstFieldAtDot(stem, ".tpr");
  }

  /** Temperature equilibration: `nvt_eq.tpr`, restraints on the input
      structure, outputs `nvt_eq.*`, step count patched to the default. */
  method MdTempEquilibrate(input: GromppSource, ctx: Context, engine: EngineReport, settings: string := "nvt_eq.mdp")
    returns (r: Result<MDRun>)
    ensures input.Unsupported? ==> r == Err(UnknownInputType)
    ensures !input.Unsupported? && MdpPath(ctx.templateDir, settings) !in ctx.existing ==> r == Err(MdpNotFound(MdpPath(ctx.templateDir, settings)))
    ensures r.Ok? <==> !input.Unsupported? && MdpPath(ctx.templateDir, settings) in ctx.existing
    ensures r.Ok? ==> Realises(r.value, input,
                               Plan(MdpPath(ctx.templateDir, settings), NvtStem + ".tpr", true, NvtStem, Some(DefaultNsteps)),
                               engine)
  {
    var mdpFile := MdpPath(ctx.templateDir, settings);
    var tprName := NvtStem + ".tpr";
    TprStem(NvtStem);
    r := CompileAndRun(input, ctx, engine, Plan(mdpFile, tprName, true, FirstField(tprName), Some(DefaultNsteps)));
  }

  /** Pressure equilibration: `npt_eq.tpr`, restraints on the input
      structure, outputs `npt_eq.*`, step count patched to the default. */
  method MdPressureEquilibrate(input: GromppSource, ctx: Context, engine: EngineReport, settings: string := "npt_eq.mdp")
    returns (r: Result<MDRun>)
    ensures input.Unsupported? ==> r == Err(UnknownInputType)
    ensures !input.Unsupported? && MdpPath(ctx.templateDir, settings) !in ctx.existing ==> r == Err(MdpNotFound(MdpPath(ctx.templateDir, settings)))
    ensures r.Ok? <==> !input.Unsupported? && MdpPath(ctx.templateDir, settings) in ctx.existing
    ensures r.Ok? ==> Realises(r.value, input,
                               Plan(MdpPath(ctx.templateDir, settings), NptStem + ".tpr", true, NptStem, Some(DefaultNsteps)),
                               engine)
  {
    var mdpFile := MdpPath(ctx.templateDir, settings);
    var tprName := NptStem + ".tpr";
    TprStem(NptStem);
    r := CompileAndRun(input, ctx, engine, Plan(mdpFile, tprName, true, FirstField(tprName), Some(DefaultNsteps)));
  }

  /** Name of the production run's compiled input: the settings name up to
      its first dot, plus `.tpr`. */
  function ProductionTprName(settings: string): (r: string)
    ensures EndsWith(r, ".tpr")
    ensures var stem := r[..|r| - 4];
      stem <= settings && '.' !in stem && (stem == settings || settings[|stem|] == '.')
    ensures '.' !in settings ==> r == settings + ".tpr"
  {
    FirstFieldUndotted(settings);
    FirstField(settings) + ".tpr"
  }

  /** A settings name `a.b` whose stem `a` has no dot compiles to `a.tpr`. */
  lemma ProductionTprNameDotted(a: string, b: string)
    requires '.' !in a
    ensures ProductionTprName(a + "." + b) == a + ".tpr"
  {
    assert a + "." + b == a + ("." + b);
    FirstFieldAtDot(a, "." + b);
  }

  /** With the default settings the production input is `prod.tpr`. */
  lemma ProductionTprNameDefault()
    ensures ProductionTprName(ProdStem + ".mdp") == ProdStem + ".tpr"
  {
    FirstFieldAtDot(ProdStem, ".mdp");
  }

  /** Production: no restraints, outputs `prod.*`; the step count is patched
      only when `nsteps` is truthy, so by default the template's count is kept. */
  method MdRun(input: GromppSource, ctx: Context, engine: EngineReport,
               settings: string := ProdStem + ".mdp", nsteps: Option<int> := None)
    returns (r: Result<MDRun>)
    ensures input.Unsupported? ==> r == Err(UnknownInputType)
    ensures !input.Unsupported? && MdpPath(ctx.templateDir, settings) !in ctx.existing ==> r == Err(MdpNotFound(MdpPath(ctx.templateDir, settings)))
    ensures r.Ok? <==> !input.Unsupported? && MdpPath(ctx.templateDir, settings) in ctx.existing
    ensures r.Ok? ==> Realises(r.value, input,
                               Plan(MdpPath(ctx.templateDir, settings), ProductionTprName(settings), false, "prod", nsteps),
                               engine)
    ensures r.Ok? && !TruthyInt(nsteps) ==> r.value.mdObject.input == ReadTpr(ProductionTprName(settings))
  {
    var mdpFile := MdpPath(ctx.templateDir, settings);
    var tprName := FirstField(settings) + ".tpr";
    r := CompileAndRun(input, ctx, engine, Plan(mdpFile, tprName, false, "prod", nsteps));
  }
}
