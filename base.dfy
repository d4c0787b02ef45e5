/** Shared value types: optional values, the single failure outcome of a
    pipeline step, and results that carry either a value or that failure. */
module Base {

  datatype Option<T> = None | Some(value: T)

  /** The command-line flags under which tool inputs and outputs are named. */
  datatype Flag = F | C | P | R | O | I | E | S | Cs | Cp
  {
    /** The flag as written on the command line. */
    function Name(): string
    {
      match this
      case F => "-f"
      case C => "-c"
      case P => "-p"
      case R => "-r"
      case O => "-o"
      case I => "-i"
      case E => "-e"
      case S => "-s"
      case Cs => "-cs"
      case Cp => "-cp"
    }
  }

  /** Different flags are written differently, so keying maps by `Flag`
      loses nothing against keying them by the written form. */
  lemma FlagNamesDistinct(a: Flag, b: Flag)
    requires a != b
    ensures a.Name() != b.Name()
  {
  }

  /** Why a step failed. The pipeline raises a bare exception (or lets a
      key, type or attribute error escape); the tag only records which
      guard fired, so that the order of the guards can be stated. */
  datatype Failure =
    | UnknownInputType
    | MdpNotFound(path: string)
    | MissingKey(flag: Flag)
    | EmptyResponse
    | NotIndexable
    | NoPdbUrl

  datatype Result<T> = Ok(value: T) | Err(failure: Failure)

  /** Python truthiness of an `int | None` argument: `None` and `0` are false. */
  predicate TruthyInt(n: Option<int>): (b: bool)
    ensures n == None || n == Some(0) ==> !b
    ensures forall k :: n == Some(k) && k != 0 ==> b
  {
    n.Some? && n.value != 0
  }
}
