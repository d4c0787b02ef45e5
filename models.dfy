/** The records passed between pipeline stages and the factories that build
    them from tool operations. */
module Models {
  import opened Base
  import opened Gmx

  /** Step count a run-input record carries unless told otherwise. */
  const DefaultNsteps := 10000

  /** A structure plus its topology. */
  datatype ProteinInput = ProteinInput(groFile: string, topFile: string)

  /** A compiled run-input together with the files it was compiled from. */
  datatype MDRunInput = MDRunInput(
    tprFile: string,
    groFile: string,
    topFile: string,
    settingsFile: Option<string> := None,
    itpFile: Option<string> := None,
    nsteps: int := DefaultNsteps,
    grompp: Option<CommandOp> := None)

  /** Stage-input records; each defaults its settings file to its stage's template. */
  datatype SteepInput = SteepInput(
    groFile: string, topFile: string,
    idpFile: Option<string> := None, settingsFile: Option<string> := Some("steep.mdp"))

  datatype NVTEquilibrationInput = NVTEquilibrationInput(
    groFile: string, topFile: string,
    idpFile: Option<string> := None, settingsFile: Option<string> := Some("nvt_eq.mdp"))

  datatype NPTEquilibrationInput = NPTEquilibrationInput(
    groFile: string, topFile: string,
    idpFile: Option<string> := None, settingsFile: Option<string> := Some("npt_eq.mdp"))

  /** A completed run: the input it ran, the final structure, the engine
      operation, the energy file and the trajectory. */
  datatype MDRun = MDRun(
    mdInput: MDRunInput,
    groFile: string,
    mdObject: MdrunOp,
    energy: string,
    trajectory: string)

  /** Building a protein record from a conversion or ion-placement
      operation: structure from its `-o` output, topology from its `-p`
      output; a missing flag is a key error, `-o` looked up first. */
  function ProteinFromTool(op: CommandOp): (r: Result<ProteinInput>)
    ensures r.Ok? <==> O in op.outputs && P in op.outputs
    ensures r.Ok? ==> r.value.groFile == op.outputs[O] && r.value.topFile == op.outputs[P]
    ensures r.Err? ==> r.failure == MissingKey(if O in op.outputs then P else O)
  {
    match OutputFile(op, O)
    case Err(f) => Err(f)
    case Ok(gro) =>
      match OutputFile(op, P)
      case Err(f) => Err(f)
      case Ok(top) => Ok(ProteinInput(gro, top))
  }

  /** Building a run-input record from grompp's input map and operation.
      Keys are read in the order `-c`, `-p`, `-r` (optional), `-f`, then the
      operation's `-o`; the step count is never set, so it stays the default. */
  function FromGrompp(inputFiles: map<Flag, string>, gmp: CommandOp): (r: Result<MDRunInput>)
    ensures r.Ok? <==> C in inputFiles && P in inputFiles && F in inputFiles && O in gmp.outputs
    ensures r.Err? ==> r.failure.MissingKey?
    ensures r.Ok? ==>
      && r.value.groFile == inputFiles[C]
      && r.value.topFile == inputFiles[P]
      && r.value.settingsFile == Some(inputFiles[F])
      && r.value.tprFile == gmp.outputs[O]
      && (r.value.itpFile.None? <==> R !in inputFiles)
      && (R in inputFiles ==> r.value.itpFile == Some(inputFiles[R]))
      && r.value.nsteps == DefaultNsteps
      && r.value.grompp == Some(gmp)
  {
    if C !in inputFiles then Err(MissingKey(C))
    else if P !in inputFiles then Err(MissingKey(P))
    else
      var itp := if R in inputFiles then Some(inputFiles[R]) else None;
      if F !in inputFiles then Err(MissingKey(F))
      else
        match OutputFile(gmp, O)
        case Err(f) => Err(f)
        case Ok(tpr) =>
          Ok(MDRunInput(tpr, inputFiles[C], inputFiles[P], Some(inputFiles[F]), itp, grompp := Some(gmp)))
  }

  /** The stage-input records default to their own stage's template and no
      restraint file, and otherwise store what they are given. */
  lemma StageRecordDefaults(gro: string, top: string)
    ensures SteepInput(gro, top) == SteepInput(gro, top, None, Some("steep.mdp"))
    ensures NVTEquilibrationInput(gro, top) == NVTEquilibrationInput(gro, top, None, Some("nvt_eq.mdp"))
    ensures NPTEquilibrationInput(gro, top) == NPTEquilibrationInput(gro, top, None, Some("npt_eq.mdp"))
  {
  }
}
