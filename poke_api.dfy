/**
 * The PokeAPI client: the error type and its descriptions, and `fetchPokemon`,
 * which draws an id by rejection sampling, builds the request URL and calls its
 * completion according to the outcome of the data task.
 */
module PokeApi {
  import opened Wrappers
  import Json
  import opened PokemonModel
  import opened Digits

  /** A Foundation `Error`, known by its `localizedDescription`. */
  datatype TransportError = TransportError(localizedDescription: string)

  datatype PokeAPIError = InvalidUrl | NoData | NetworkError(underlying: TransportError) | DecodingError

  const NetworkErrorPrefix := "Network error: "

  /**
   * `errorDescription`: a fixed sentence per case; only `networkError` has the
   * "Network error: " prefix, and the underlying description follows it.
   */
  function ErrorDescription(e: PokeAPIError): (r: Option<string>)
    ensures r.Some?
    ensures e.NetworkError? <==> |NetworkErrorPrefix| <= |r.value| && r.value[..|NetworkErrorPrefix|] == NetworkErrorPrefix
    ensures e.NetworkError? ==> r.value[|NetworkErrorPrefix|..] == e.underlying.localizedDescription
  {
    match e
    case InvalidUrl =>
      var d := "The URL provided was invalid.";
      assert d[0] != NetworkErrorPrefix[0];
      Some(d)
    case NoData =>
      var d := "No data was received from the server.";
      assert d[1] != NetworkErrorPrefix[1];
      Some(d)
    case NetworkError(underlying) => Some(NetworkErrorPrefix + underlying.localizedDescription)
    case DecodingError =>
      var d := "Failed to decode the data " + "into the specified format.";
      assert d[0] != NetworkErrorPrefix[0];
      Some(d)
  }

  /** Distinct errors are described differently. */
  lemma ErrorDescriptionInjective(a: PokeAPIError, b: PokeAPIError)
    ensures ErrorDescription(a) == ErrorDescription(b) ==> a == b
  {
    if ErrorDescription(a) == ErrorDescription(b) && a.NetworkError? && b.NetworkError? {
      var d := ErrorDescription(a).value;
      assert a.underlying.localizedDescription == d[|NetworkErrorPrefix|..] == b.underlying.localizedDescription;
    }
  }

  /**
   * What `fetchPokemon` passes to `completion` on failure: the data task's own
   * error, the `NSError` with description "No data received", or the decoder's
   * `DecodingError`.
   */
  datatype FetchError = Transport(cause: TransportError) | NoDataReceived | Decoding(error: Json.DecodingError)

  type FetchResult = Result<Pokemon, FetchError>

  /** The `data` and `error` arguments the data task hands to its handler. */
  datatype TaskResult = TaskResult(data: Option<Json.Body>, error: Option<TransportError>)

  /**
   * The data task's handler: the error is checked first, then the presence of a
   * body, then the decoding; each case ends in exactly one completion value.
   */
  function Respond(task: TaskResult, urlParses: string -> bool): (r: FetchResult)
    ensures task.error.Some? ==> r == Failure(Transport(task.error.value))
    ensures task.error.None? && task.data.None? ==> r == Failure(NoDataReceived)
    ensures task.error.None? && task.data.Some? && r.Failure? ==>
            DecodeBody(task.data.value, urlParses).Failure? &&
            r.error == Decoding(DecodeBody(task.data.value, urlParses).error)
    ensures r.Success? <==>
            task.error.None? && task.data.Some? && task.data.value.Document? &&
            WellFormed(task.data.value.root, urlParses)
    ensures r.Success? ==> r.value == Described(task.data.value.root, urlParses)
  {
    if task.error.Some? then Failure(Transport(task.error.value))
    else if task.data.None? then Failure(NoDataReceived)
    else
      match DecodeBody(task.data.value, urlParses)
      case Success(pokemon) => Success(pokemon)
      case Failure(e) => Failure(Decoding(e))
  }

  /**
   * The rejection-sampling loop: `draws` are the successive values of
   * `Int.random(in: lower..<upper)`; the first draw outside `excluded` is taken.
   * The loop stops only if some draw is outside `excluded`.
   */
  method SampleId(draws: seq<int>, lower: int, upper: int, excluded: set<int>) returns (id: int, taken: nat)
    requires forall k | 0 <= k < |draws| :: lower <= draws[k] < upper
    requires exists k | 0 <= k < |draws| :: draws[k] !in excluded
    ensures taken < |draws| && id == draws[taken]
    ensures lower <= id < upper && id !in excluded
    ensures forall k | 0 <= k < taken :: draws[k] in excluded
  {
    taken := 0;
    id := draws[0];
    while id in excluded
      invariant taken < |draws| && id == draws[taken]
      invariant forall k | 0 <= k < taken :: draws[k] in excluded
      invariant exists k | taken <= k < |draws| :: draws[k] !in excluded
      decreases |draws| - taken
    {
      taken := taken + 1;
      id := draws[taken];
    }
  }

  class PokeApi {
    const baseUrl: string := "https://pokeapi.co/api/v2/"

    /** Never modified: it stays the empty set. */
    const requestedIds: set<int> := {}

    /** `Range(1...800)` is the half-open range `1..<801`. */
    const rangeLower: int := 1
    const rangeUpper: int := 801

    constructor()
      ensures requestedIds == {}
    {
    }

    /**
     * `baseUrl + "pokemon/" + String(id)`: "https://pokeapi.co/api/v2/pokemon/"
     * followed by the canonical decimal of the id (no sign, no leading zeros).
     */
    function RequestUrl(id: nat): (url: string)
      ensures var prefix := "https://pokeapi.co/api/v2/pokemon/";
        |prefix| < |url| && url[..|prefix|] == prefix &&
        AllDigits(url[|prefix|..]) && DecimalValue(url[|prefix|..]) == id &&
        (url[|prefix|] == '0' ==> id == 0)
    {
      var url := baseUrl + "pokemon/" + Decimal(id);
      assert url[|baseUrl + "pokemon/"|..] == Decimal(id);
      DecimalCanonical(id);
      url
    }

    /**
     * `fetchPokemon(completion:)`. `draws` is the random source, `urlParses` stands
     * for `URL(string:)`, and `task` is what the data task reports. The result
     * `calls` lists the values `completion` is called with: none when the URL does
     * not parse, exactly one otherwise.
     */
    method FetchPokemon(draws: seq<int>, urlParses: string -> bool, task: TaskResult)
      returns (id: int, calls: seq<FetchResult>)
      requires forall k | 0 <= k < |draws| :: rangeLower <= draws[k] < rangeUpper
      requires exists k | 0 <= k < |draws| :: draws[k] !in requestedIds
      ensures rangeLower <= id < rangeUpper && id !in requestedIds
      ensures id == draws[0]
      ensures id >= 0 && calls == if urlParses(RequestUrl(id)) then [Respond(task, urlParses)] else []
    {
      var taken;
      id, taken := SampleId(draws, rangeLower, rangeUpper, requestedIds);
      var endpoint := RequestUrl(id);
      if !urlParses(endpoint) {
        return id, [];
      }
      if task.error.Some? {
        return id, [Failure(Transport(task.error.value))];
      }
      if task.data.None? {
        return id, [Failure(NoDataReceived)];
      }
      match DecodeBody(task.data.value, urlParses) {
        case Success(pokemon) => calls := [Success(pokemon)];
        case Failure(e) => calls := [Failure(Decoding(e))];
      }
    }
  }

  /** Distinct ids give distinct request URLs. */
  lemma RequestUrlInjective(api: PokeApi, a: nat, b: nat)
    ensures api.RequestUrl(a) == api.RequestUrl(b) <==> a == b
  {
    var prefix := "https://pokeapi.co/api/v2/pokemon/";
    if api.RequestUrl(a) == api.RequestUrl(b) {
      assert api.RequestUrl(a)[|prefix|..] == api.RequestUrl(b)[|prefix|..];
    }
  }

  /**
   * Nothing ties the delivered pokemon to the requested id: a body whose `id`
   * lies outside `1...800` is delivered as it is.
   */
  lemma DeliveredIdIsNotChecked(urlParses: string -> bool)
    requires urlParses(SampleArtworkUrl)
    ensures var body := SamplePayloadWith(900, map[FrontDefaultKey := Json.JString(SampleArtworkUrl)]);
      Respond(TaskResult(Some(Json.Document(body)), None), urlParses) ==
      Success(Pokemon(900, "Bulbasaur", Sprites(Other(OfficialArtwork(Url(SampleArtworkUrl))))))
  {
  }
}
