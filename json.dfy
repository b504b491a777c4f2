/**
 * An abstract JSON value, as JSONDecoder sees a document once the text has been
 * parsed, and the rules by which it decodes the primitive values and the keyed
 * containers that a synthesized `Decodable` conformance asks for.
 */
module Json {
  import opened Wrappers

  /** Integer numbers and non-integral numbers are told apart; objects are key maps. */
  datatype Json =
    | JNull
    | JBool(b: bool)
    | JInt(i: int)
    | JReal(r: real)
    | JString(s: string)
    | JArray(items: seq<Json>)
    | JObject(members: map<string, Json>)

  /**
   * A response body as `JSONDecoder.decode(_:from:)` receives it: bytes that are
   * not a JSON document, or the parsed document (text parsing is not modelled).
   */
  datatype Body = Unparsable | Document(root: Json)

  /** Swift's `DecodingError` cases, each with the coding path of keys where it arose. */
  datatype DecodingError =
    | TypeMismatch(codingPath: seq<string>)
    | ValueNotFound(codingPath: seq<string>)
    | KeyNotFound(key: string, codingPath: seq<string>)
    | DataCorrupted(codingPath: seq<string>)

  /** The error arose at `path` or below it. */
  predicate ReportedWithin(e: DecodingError, path: seq<string>) {
    |path| <= |e.codingPath| && e.codingPath[..|path|] == path
  }

  /** Swift's `Int` is 64 bits wide. */
  const IntMin: int := -0x8000_0000_0000_0000
  const IntMax: int := 0x7fff_ffff_ffff_ffff

  predicate IsInt(i: int) {
    IntMin <= i <= IntMax
  }

  /** `decoder.container(keyedBy:)`: only an object opens a keyed container. */
  function KeyedContainer(j: Json, path: seq<string>): (r: Result<map<string, Json>, DecodingError>)
    ensures r.Success? <==> j.JObject?
    ensures r.Success? ==> r.value == j.members
    ensures j == JNull ==> r == Failure(ValueNotFound(path))
  {
    match j
    case JObject(m) => Success(m)
    case JNull => Failure(ValueNotFound(path))
    case _ => Failure(TypeMismatch(path))
  }

  /** The value under `key` of a keyed container, or `keyNotFound`. */
  function Member(m: map<string, Json>, key: string, path: seq<string>): (r: Result<Json, DecodingError>)
    ensures r.Success? <==> key in m
    ensures r.Success? ==> r.value == m[key]
    ensures r.Failure? ==> r.error == KeyNotFound(key, path)
  {
    if key in m then Success(m[key]) else Failure(KeyNotFound(key, path))
  }

  /** `decode(Int.self, ...)`: an integer number that fits in 64 bits. */
  function DecodeInt(j: Json, path: seq<string>): (r: Result<int, DecodingError>)
    ensures r.Success? <==> j.JInt? && IsInt(j.i)
    ensures r.Success? ==> r.value == j.i
    ensures j == JNull ==> r == Failure(ValueNotFound(path))
  {
    match j
    case JInt(i) => if IsInt(i) then Success(i) else Failure(DataCorrupted(path))
    case JReal(_) => Failure(DataCorrupted(path))
    case JNull => Failure(ValueNotFound(path))
    case _ => Failure(TypeMismatch(path))
  }

  /** `decode(String.self, ...)`: a JSON string. */
  function DecodeString(j: Json, path: seq<string>): (r: Result<string, DecodingError>)
    ensures r.Success? <==> j.JString?
    ensures r.Success? ==> r.value == j.s
  {
    match j
    case JString(s) => Success(s)
    case JNull => Failure(ValueNotFound(path))
    case _ => Failure(TypeMismatch(path))
  }

  /**
   * `decode(URL.self, ...)`: a JSON string that `URL(string:)` accepts; `urlParses`
   * stands for that initializer. The result is the URL's `absoluteString`.
   */
  function DecodeUrl(j: Json, path: seq<string>, urlParses: string -> bool): (r: Result<string, DecodingError>)
    ensures r.Success? <==> j.JString? && urlParses(j.s)
    ensures r.Success? ==> r.value == j.s
  {
    var s :- DecodeString(j, path);
    if urlParses(s) then Success(s) else Failure(DataCorrupted(path))
  }

  /** The value reached from `j` by following `keys` through nested objects. */
  function Lookup(j: Json, keys: seq<string>): (r: Option<Json>)
    decreases |keys|
  {
    if keys == [] then Some(j)
    else if j.JObject? && keys[0] in j.members then Lookup(j.members[keys[0]], keys[1..])
    else None
  }
}
