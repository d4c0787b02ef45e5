/** The older, eager versions of the conversion and solvation steps. They
    issue the same kinds of operations as `Steps`, with an unguarded suffix
    test and a solvation that stops before ion placement. */
module Flow {
  import opened Base
  import opened PathNames
  import opened Gmx
  import Models
  import Steps

  /** Conversion: writes the structure text to `temp_input.pdb` in the
      working directory (not modelled) and issues `pdb2gmx` on it, with
      names normalised by the unguarded suffix test; returns the operation. */
  function Pdb2gmx(ctx: Steps.Context,
                   groName: string := "conf", topName: string := "topol", itpName: string := "posre")
    : (r: CommandOp)
    ensures r == Steps.Pdb2gmx(ctx, Join(ctx.cwd, Steps.PdbFileName), groName, topName, itpName).ops[0]
    ensures r.inputs == map[F := Join(ctx.cwd, Steps.PdbFileName)]
    ensures r.outputs.Keys == {O, P, I}
    ensures EndsWith(r.outputs[O], Suffix(Gro)) && EndsWith(r.outputs[P], Suffix(Top))
    ensures EndsWith(r.outputs[I], Suffix(Itp))
  {
    var groFile := Join(ctx.cwd, WithSuffixUnguarded(groName, Gro));
    var topFile := Join(ctx.cwd, WithSuffixUnguarded(topName, Top));
    var itpFile := Join(ctx.cwd, WithSuffixUnguarded(itpName, Itp));
    UnguardedAgrees(groName, Gro);
    UnguardedAgrees(topName, Top);
    UnguardedAgrees(itpName, Itp);
    Steps.ConversionOutputFormats(ctx.cwd, groName, topName, itpName);
    CommandOp("gmx", Steps.Pdb2gmxArgs, map[F := Join(ctx.cwd, Steps.PdbFileName)],
              Steps.OutputMap(groFile, topFile, itpFile), None)
  }

  /** Solvation: enlarge and centre the box around the conversion's `-o`
      structure, then fill it with solvent; returns the solvation outputs.
      Only `-o` is declared, and no ion step follows. A conversion without
      a `-o` output is a key error before anything is issued. */
  function HydrateSimulationBox(ctx: Steps.Context, proteinGro: CommandOp)
    : (r: Steps.Staged<map<Flag, string>>)
    ensures r.outcome.Ok? <==> O in proteinGro.outputs
    ensures r.outcome.Err? ==> r.ops == [] && r.outcome.failure == MissingKey(O)
    ensures r.outcome.Ok? ==>
      && |r.ops| == 2
      && r.ops[0] == CommandOp("gmx", ["editconf", "-c", "-d", "1.5"], map[F := proteinGro.outputs[O]],
                               map[O := Join(ctx.cwd, "empty_protein.gro")], None)
      && r.ops[1] == CommandOp("gmx", ["solvate"], map[Cs := "spc216", Cp := r.ops[0].outputs[O]],
                               map[O := Join(ctx.cwd, "solvated_protein.gro")], None)
      && r.outcome.value == r.ops[1].outputs
  {
    match OutputFile(proteinGro, O)
    case Err(f) => Steps.Staged([], Err(f))
    case Ok(gro) =>
      var edit := CommandOp("gmx", ["editconf", "-c", "-d", "1.5"], map[F := gro],
                            map[O := Join(ctx.cwd, "empty_protein.gro")], None);
      var solv := CommandOp("gmx", ["solvate"], map[Cs := "spc216", Cp := edit.outputs[O]],
                            map[O := Join(ctx.cwd, "solvated_protein.gro")], None);
      Steps.Staged([edit, solv], Ok(solv.outputs))
  }

  /** The eager solvation issues the same box edit as the staged one and the
      same solvation except that the staged one also declares the topology
      output; the staged one then goes on to ion placement. */
  lemma HydrateAgreesWithSteps(ctx: Steps.Context, conversion: CommandOp, protein: Models.ProteinInput)
    requires O in conversion.outputs && protein.groFile == conversion.outputs[O]
    ensures var eager := HydrateSimulationBox(ctx, conversion);
            var staged := Steps.HydrateSimulationBox(ctx, protein);
      && eager.ops[0] == staged.ops[0]
      && staged.ops[1] == eager.ops[1].(outputs := eager.ops[1].outputs[P := Join(ctx.cwd, "topol.top")])
  {
  }
}
