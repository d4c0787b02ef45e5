/** The simulation engine as the pipeline sees it: opaque operation values.
    Nothing here runs a tool; an operation records what was asked of it, and
    what the engine reports back is passed in from outside. */
module Gmx {
  import opened Base

  /** One `commandline_operation(executable, args, input_files, output_files, stdin)`. */
  datatype CommandOp = CommandOp(
    executable: string,
    args: seq<string>,
    inputs: map<Flag, string>,
    outputs: map<Flag, string>,
    stdin: Option<string>)

  /** `op.output.file[flag].result()`: the path recorded for a declared
      output flag; asking for an undeclared flag is a key error. */
  function OutputFile(op: CommandOp, flag: Flag): (r: Result<string>)
    ensures r.Ok? <==> flag in op.outputs
    ensures r.Ok? ==> r.value == op.outputs[flag]
    ensures r.Err? ==> r.failure == MissingKey(flag)
  {
    if flag in op.outputs then Ok(op.outputs[flag]) else Err(MissingKey(flag))
  }

  /** The run input handed to mdrun: a compiled run-input read from disk,
      possibly with its step count patched. */
  datatype RunInput =
    | ReadTpr(path: string)
    | ModifyNsteps(base: RunInput, nsteps: int)

  /** What the engine reports after a run: its output directory and trajectory path. */
  datatype EngineReport = EngineReport(directory: string, trajectory: string)

  /** One `mdrun(input, runtime_args)` together with what the engine reported. */
  datatype MdrunOp = MdrunOp(input: RunInput, runtimeArgs: map<Flag, string>, report: EngineReport)
}
