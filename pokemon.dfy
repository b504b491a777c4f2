/**
 * The `Pokemon` record and its nested `Sprites`, `Other` and `OfficialArtwork`
 * records, with the decoder that their synthesized `Decodable` conformances and
 * `CodingKeys` amount to.
 */
module PokemonModel {
  import opened Wrappers
  import opened Json

  /** A `URL`, known by its `absoluteString`. */
  datatype Url = Url(absoluteString: string)

  datatype OfficialArtwork = OfficialArtwork(frontDefault: Url)
  datatype Other = Other(officialArtwork: OfficialArtwork)
  datatype Sprites = Sprites(other: Other)

  /** `Identifiable` through `id`: the key a list of pokemons is identified by. */
  datatype Pokemon = Pokemon(id: int, name: string, sprites: Sprites)

  /** The JSON keys, as the `CodingKeys` enums (or the property names) give them. */
  const IdKey := "id"
  const NameKey := "name"
  const SpritesKey := "sprites"
  const OtherKey := "other"
  const OfficialArtworkKey := "official-artwork"
  const FrontDefaultKey := "front_default"

  /**
   * `OfficialArtwork.init(from:)`: succeeds exactly on an object whose
   * "front_default" member is a string that parses as a URL, which becomes
   * `frontDefault`; a failure is reported at `path` or below it.
   */
  function DecodeOfficialArtwork(j: Json, path: seq<string>, urlParses: string -> bool): (r: Result<OfficialArtwork, DecodingError>)
    ensures r.Success? <==>
            j.JObject? && FrontDefaultKey in j.members && j.members[FrontDefaultKey].JString? &&
            urlParses(j.members[FrontDefaultKey].s)
    ensures r.Success? ==> r.value.frontDefault.absoluteString == j.members[FrontDefaultKey].s
    ensures r.Failure? ==> ReportedWithin(r.error, path)
  {
    var m :- KeyedContainer(j, path);
    var v :- Member(m, FrontDefaultKey, path);
    var url :- DecodeUrl(v, path + [FrontDefaultKey], urlParses);
    Success(OfficialArtwork(Url(url)))
  }

  /** `Other.init(from:)`: reads "official-artwork"; it needs an object, and failures stay at or below `path`. */
  function DecodeOther(j: Json, path: seq<string>, urlParses: string -> bool): (r: Result<Other, DecodingError>)
    ensures r.Success? ==> j.JObject? && OfficialArtworkKey in j.members
    ensures r.Failure? ==> ReportedWithin(r.error, path)
  {
    var m :- KeyedContainer(j, path);
    var v :- Member(m, OfficialArtworkKey, path);
    var artwork :- DecodeOfficialArtwork(v, path + [OfficialArtworkKey], urlParses);
    Success(Other(artwork))
  }

  /** `Sprites.init(from:)`: reads "other"; it needs an object, and failures stay at or below `path`. */
  function DecodeSprites(j: Json, path: seq<string>, urlParses: string -> bool): (r: Result<Sprites, DecodingError>)
    ensures r.Success? ==> j.JObject? && OtherKey in j.members
    ensures r.Failure? ==> ReportedWithin(r.error, path)
  {
    var m :- KeyedContainer(j, path);
    var v :- Member(m, OtherKey, path);
    var other :- DecodeOther(v, path + [OtherKey], urlParses);
    Success(Sprites(other))
  }

  /**
   * `Pokemon.init(from:)`: the properties are decoded in declaration order; on
   * success `id` and `name` are the payload's members unchanged, and a payload
   * that is not an object fails at the top level.
   */
  function DecodePokemon(j: Json, urlParses: string -> bool): (r: Result<Pokemon, DecodingError>)
    ensures r.Success? ==>
            j.JObject? && IdKey in j.members && NameKey in j.members &&
            j.members[IdKey].JInt? && j.members[NameKey].JString? &&
            r.value.id == j.members[IdKey].i && r.value.name == j.members[NameKey].s
    ensures !j.JObject? ==> r.Failure? && r.error.codingPath == []
  {
    var m :- KeyedContainer(j, []);
    var idValue :- Member(m, IdKey, []);
    var id :- DecodeInt(idValue, [IdKey]);
    var nameValue :- Member(m, NameKey, []);
    var name :- DecodeString(nameValue, [NameKey]);
    var spritesValue :- Member(m, SpritesKey, []);
    var sprites :- DecodeSprites(spritesValue, [SpritesKey], urlParses);
    Success(Pokemon(id, name, sprites))
  }

  /**
   * `JSONDecoder().decode(Pokemon.self, from: data)`: bytes that are not JSON
   * fail as `dataCorrupted` at the top level; a document decodes exactly when it
   * is well-formed, to the record it describes.
   */
  function DecodeBody(body: Body, urlParses: string -> bool): (r: Result<Pokemon, DecodingError>)
    ensures body.Unparsable? ==> r == Failure(DataCorrupted([]))
    ensures r.Success? <==> body.Document? && WellFormed(body.root, urlParses)
    ensures r.Success? ==> r.value == Described(body.root, urlParses)
  {
    match body
    case Unparsable => Failure(DataCorrupted([]))
    case Document(j) => DecodePokemonIff(j, urlParses); DecodePokemon(j, urlParses)
  }

  // ---------------------------------------------------------------------------
  // Reference description of the wire shape, by key paths.

  const ArtworkPath: seq<string> := [SpritesKey, OtherKey, OfficialArtworkKey, FrontDefaultKey]

  predicate HasId(j: Json) {
    var v := Lookup(j, [IdKey]);
    v.Some? && v.value.JInt? && IsInt(v.value.i)
  }

  predicate HasName(j: Json) {
    var v := Lookup(j, [NameKey]);
    v.Some? && v.value.JString?
  }

  predicate HasArtwork(j: Json, urlParses: string -> bool) {
    var v := Lookup(j, ArtworkPath);
    v.Some? && v.value.JString? && urlParses(v.value.s)
  }

  /** The payload carries every declared property, each of the declared type. */
  predicate WellFormed(j: Json, urlParses: string -> bool) {
    HasId(j) && HasName(j) && HasArtwork(j, urlParses)
  }

  /** The record a well-formed payload describes, read straight off its key paths. */
  function Described(j: Json, urlParses: string -> bool): Pokemon
    requires WellFormed(j, urlParses)
  {
    Pokemon(Lookup(j, [IdKey]).value.i, Lookup(j, [NameKey]).value.s,
            Sprites(Other(OfficialArtwork(Url(Lookup(j, ArtworkPath).value.s)))))
  }

  lemma LookupStep(j: Json, key: string, rest: seq<string>)
    ensures Lookup(j, [key] + rest) ==
            if j.JObject? && key in j.members then Lookup(j.members[key], rest) else None
  {
  }

  lemma ArtworkPathStep(j: Json)
    ensures Lookup(j, ArtworkPath) ==
            if j.JObject? && SpritesKey in j.members then Lookup(j.members[SpritesKey], ArtworkPath[1..]) else None
    ensures ArtworkPath[1..] == [OtherKey] + ArtworkPath[2..]
    ensures ArtworkPath[2..] == [OfficialArtworkKey] + [FrontDefaultKey]
  {
  }

  /** Decoding `sprites` succeeds exactly when the rest of the artwork path leads to a URL string. */
  lemma {:induction false} DecodeSpritesIff(s: Json, path: seq<string>, urlParses: string -> bool)
    ensures DecodeSprites(s, path, urlParses).Success? <==>
            (var v := Lookup(s, ArtworkPath[1..]); v.Some? && v.value.JString? && urlParses(v.value.s))
    ensures DecodeSprites(s, path, urlParses).Success? ==>
            DecodeSprites(s, path, urlParses).value.other.officialArtwork.frontDefault.absoluteString ==
            Lookup(s, ArtworkPath[1..]).value.s
  {
    ArtworkPathStep(s);
    LookupStep(s, OtherKey, ArtworkPath[2..]);
    if s.JObject? && OtherKey in s.members {
      var o := s.members[OtherKey];
      LookupStep(o, OfficialArtworkKey, [FrontDefaultKey]);
      if o.JObject? && OfficialArtworkKey in o.members {
        LookupStep(o.members[OfficialArtworkKey], FrontDefaultKey, []);
        assert [FrontDefaultKey] + [] == [FrontDefaultKey];
      }
    }
  }

  /**
   * Decoding succeeds exactly for the well-formed payloads, and then yields the
   * record described by the payload's key paths (so `id` is the JSON `id` unchanged).
   */
  lemma {:induction false} DecodePokemonIff(j: Json, urlParses: string -> bool)
    ensures DecodePokemon(j, urlParses).Success? <==> WellFormed(j, urlParses)
    ensures DecodePokemon(j, urlParses).Success? ==> DecodePokemon(j, urlParses).value == Described(j, urlParses)
  {
    LookupStep(j, IdKey, []);
    LookupStep(j, NameKey, []);
    assert [IdKey] + [] == [IdKey] && [NameKey] + [] == [NameKey];
    ArtworkPathStep(j);
    if j.JObject? && SpritesKey in j.members {
      DecodeSpritesIff(j.members[SpritesKey], [SpritesKey], urlParses);
    }
  }

  // ---------------------------------------------------------------------------
  // Only the declared properties are read.

  /** The members of `m` under the keys in `keys`, each passed through `f`. */
  function Keep(m: map<string, Json>, keys: set<string>, f: (string, Json) -> Json): (r: map<string, Json>)
    ensures r.Keys == m.Keys * keys
    ensures forall k :: k in r ==> r[k] == f(k, m[k])
  {
    map k | k in m && k in keys :: f(k, m[k])
  }

  function DeclaredArtwork(j: Json): Json {
    if j.JObject? then JObject(Keep(j.members, {FrontDefaultKey}, (k, v) => v)) else j
  }

  function DeclaredOther(j: Json): Json {
    if j.JObject? then JObject(Keep(j.members, {OfficialArtworkKey}, (k, v) => DeclaredArtwork(v))) else j
  }

  function DeclaredSprites(j: Json): Json {
    if j.JObject? then JObject(Keep(j.members, {OtherKey}, (k, v) => DeclaredOther(v))) else j
  }

  /** `j` with every key that no `CodingKeys` declares removed, at every level. */
  function Declared(j: Json): Json {
    if j.JObject? then
      JObject(Keep(j.members, {IdKey, NameKey, SpritesKey}, (k, v) => if k == SpritesKey then DeclaredSprites(v) else v))
    else j
  }

  /** Keys that no `CodingKeys` declares, at any level, do not affect the result. */
  lemma DecodeIgnoresUndeclaredKeys(j: Json, urlParses: string -> bool)
    ensures DecodePokemon(Declared(j), urlParses) == DecodePokemon(j, urlParses)
  {
  }

  // ---------------------------------------------------------------------------
  // The renamed keys.

  /**
   * `officialArtwork` is read from the key "official-artwork": when that key is
   * missing (whatever other keys, "officialArtwork" included, are present) the
   * decoding fails with `keyNotFound` at `sprites.other`.
   */
  lemma {:induction false} OfficialArtworkKeyRequired(j: Json, other: map<string, Json>, urlParses: string -> bool)
    requires HasId(j) && HasName(j)
    requires Lookup(j, [SpritesKey, OtherKey]) == Some(JObject(other))
    requires OfficialArtworkKey !in other
    ensures DecodePokemon(j, urlParses) == Failure(KeyNotFound(OfficialArtworkKey, [SpritesKey, OtherKey]))
  {
    LookupStep(j, IdKey, []);
    LookupStep(j, NameKey, []);
    assert [IdKey] + [] == [IdKey] && [NameKey] + [] == [NameKey];
    LookupStep(j, SpritesKey, [OtherKey]);
    assert [SpritesKey] + [OtherKey] == [SpritesKey, OtherKey];
    LookupStep(j.members[SpritesKey], OtherKey, []);
    assert [OtherKey] + [] == [OtherKey];
    assert [SpritesKey] + [OtherKey] == [SpritesKey, OtherKey];
  }

  /**
   * `frontDefault` is read from the key "front_default": when that key is missing
   * the decoding fails with `keyNotFound` at `sprites.other.official-artwork`.
   */
  lemma {:induction false} FrontDefaultKeyRequired(j: Json, artwork: map<string, Json>, urlParses: string -> bool)
    requires HasId(j) && HasName(j)
    requires Lookup(j, ArtworkPath[..3]) == Some(JObject(artwork))
    requires FrontDefaultKey !in artwork
    ensures DecodePokemon(j, urlParses) == Failure(KeyNotFound(FrontDefaultKey, ArtworkPath[..3]))
  {
    LookupStep(j, IdKey, []);
    LookupStep(j, NameKey, []);
    assert [IdKey] + [] == [IdKey] && [NameKey] + [] == [NameKey];
    assert ArtworkPath[..3] == [SpritesKey] + [OtherKey, OfficialArtworkKey];
    LookupStep(j, SpritesKey, [OtherKey, OfficialArtworkKey]);
    var s := j.members[SpritesKey];
    assert [OtherKey, OfficialArtworkKey] == [OtherKey] + [OfficialArtworkKey];
    LookupStep(s, OtherKey, [OfficialArtworkKey]);
    var o := s.members[OtherKey];
    LookupStep(o, OfficialArtworkKey, []);
    assert [OfficialArtworkKey] + [] == [OfficialArtworkKey];
    assert [SpritesKey] + [OtherKey] + [OfficialArtworkKey] == ArtworkPath[..3];
  }

  // ---------------------------------------------------------------------------
  // The sample payload of the decoding test.

  const SampleArtworkUrl := "https://raw.githubusercontent.com/PokeAPI/sprites/master/sprites/pokemon/other/official-artwork/1.png"

  /** The sample payload, with the given `id` and `official-artwork` members. */
  function SamplePayloadWith(id: int, artwork: map<string, Json>): Json {
    JObject(map[IdKey := JInt(id), NameKey := JString("Bulbasaur"),
                SpritesKey := JObject(map[OtherKey := JObject(map[OfficialArtworkKey := JObject(artwork)])])])
  }

  const SamplePayload: Json := SamplePayloadWith(1, map[FrontDefaultKey := JString(SampleArtworkUrl)])

  /** The sample decodes to id 1, name "Bulbasaur" and the sample artwork URL. */
  lemma DecodeSample(urlParses: string -> bool)
    requires urlParses(SampleArtworkUrl)
    ensures DecodePokemon(SamplePayload, urlParses) ==
            Success(Pokemon(1, "Bulbasaur", Sprites(Other(OfficialArtwork(Url(SampleArtworkUrl))))))
  {
  }

  /** Without `front_default` the sample fails to decode, with `keyNotFound`. */
  lemma DecodeSampleWithoutFrontDefault(urlParses: string -> bool)
    ensures DecodePokemon(SamplePayloadWith(1, map[]), urlParses) ==
            Failure(KeyNotFound(FrontDefaultKey, [SpritesKey, OtherKey, OfficialArtworkKey]))
  {
    var path := [SpritesKey, OtherKey, OfficialArtworkKey];
    assert [SpritesKey] + [OtherKey] + [OfficialArtworkKey] == path;
    assert DecodeOfficialArtwork(JObject(map[]), path, urlParses) == Failure(KeyNotFound(FrontDefaultKey, path));
  }
}
