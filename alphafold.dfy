/** Validation of the structure-database answer: the pipeline asks for the
    predictions of one protein identifier and takes the first entry's
    `pdbUrl`. The HTTP requests themselves are not modelled; a response is
    the decoded JSON value. */
module Alphafold {
  import opened Base
  import opened PathNames

  /** A decoded JSON value (numbers restricted to integers). */
  datatype Json =
    | Null
    | Bool(b: bool)
    | Num(n: int)
    | Str(s: string)
    | Arr(items: seq<Json>)
    | Obj(fields: map<string, Json>)

  /** Python truthiness of a decoded JSON value: exactly `None`, `False`,
      `0`, the empty string, the empty list and the empty dict are false. */
  predicate Truthy(j: Json): (b: bool)
    ensures !b <==> j == Null || j == Bool(false) || j == Num(0) || j == Str("") || j == Arr([]) || j == Obj(map[])
  {
    match j
    case Null => false
    case Bool(b) => b
    case Num(n) => n != 0
    case Str(s) => s != ""
    case Arr(a) => a != []
    case Obj(m) => m != map[]
  }

  const ApiBase := "https://alphafold.ebi.ac.uk/api"

  /** The prediction route asked for a protein identifier. */
  function PredictionUrl(uniprotId: string): (r: string)
    ensures StartsWith(r, ApiBase + "/prediction/")
    ensures EndsWith(r, uniprotId)
  {
    ApiBase + "/prediction/" + uniprotId
  }

  /** Different identifiers are asked for at different URLs. */
  lemma PredictionUrlInjective(a: string, b: string)
    requires PredictionUrl(a) == PredictionUrl(b)
    ensures a == b
  {
    var k := |ApiBase + "/prediction/"|;
    assert a == PredictionUrl(a)[k..];
    assert b == PredictionUrl(b)[k..];
  }

  /** What the response checks accept: a non-empty list whose first element
      is an object with a truthy `pdbUrl`. */
  predicate HasPdbUrl(response: Json)
  {
    && response.Arr? && |response.items| > 0
    && response.items[0].Obj?
    && "pdbUrl" in response.items[0].fields
    && Truthy(response.items[0].fields["pdbUrl"])
  }

  /** The response checks: a falsy response fails; a truthy value that has
      no length or cannot be indexed and asked `.get` (anything but a list
      whose first element is an object) fails; a missing or falsy `pdbUrl`
      fails. Otherwise the URL to fetch is the first element's `pdbUrl`. */
  function PdbUrl(response: Json): (r: Result<Json>)
    ensures r.Ok? <==> HasPdbUrl(response)
    ensures r.Ok? ==> r.value == response.items[0].fields["pdbUrl"] && Truthy(r.value)
    ensures !Truthy(response) ==> r == Err(EmptyResponse)
    ensures (response.Arr? && response.items != [] && response.items[0].Obj? && !HasPdbUrl(response))
      ==> r == Err(NoPdbUrl)
  {
    if !Truthy(response) then Err(EmptyResponse)
    else
      match response
      case Arr(items) =>
        (match items[0]
         case Obj(fields) =>
           var url := if "pdbUrl" in fields then fields["pdbUrl"] else Null;
           if !Truthy(url) then Err(NoPdbUrl) else Ok(url)
         case _ => Err(NotIndexable))
      case _ => Err(NotIndexable)
  }

  /** Only the first entry of the answer matters: answers that agree on it
      are accepted or refused together and yield the same URL. */
  lemma PdbUrlOnlyFirstEntry(a: seq<Json>, b: seq<Json>)
    requires a != [] && b != [] && a[0] == b[0]
    ensures PdbUrl(Arr(a)) == PdbUrl(Arr(b))
  {
  }
}
