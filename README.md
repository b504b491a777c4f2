# Pokedex core, modelled in Dafny

The Pokedex app shows a grid of pokemons. Every 30 seconds, and whenever the
"Mostrar pokemon" button is pressed, it fetches one pokemon with a random id
from the PokeAPI REST service. A label shows the seconds since the last
timed fetch as `MM:SS`. This project models the three parts of the app that
hold logic. It then proves properties of each part.

- `pokemon.dfy` (module `PokemonModel`) models the `Pokemon` record and its
  nested `Sprites`, `Other` and `OfficialArtwork` records. Their synthesized
  `Decodable` conformance and `CodingKeys` become a total decoder over an
  abstract JSON tree (`json.dfy`, module `Json`). The decoder follows the
  rules JSONDecoder applies to integers, strings, URLs and keyed containers.
  Every failure is one of Swift's `DecodingError` cases, carrying its coding
  path.
- `poke_api.dfy` (module `PokeApi`) models three things. `PokeAPIError` and
  its `errorDescription`; the `PokeAPI` class with its constants; and
  `fetchPokemon`. That covers the rejection-sampling loop (`SampleId`), the
  URL string, the early return when the URL does not parse, and the data
  task's handler (`Respond`), which picks the one value `completion` is
  called with.
- `pokedex_view.dfy` (module `PokedexView`) models `timeString`, including
  Swift's truncating `/` and `%`. It also models the `PokedexViewModel` class
  with its four fields. One method handles each event: the 1-second clock,
  the 30-second fetch timer, the button, and the arrival of a fetch result.
  The newest-first display order is modelled too.
- `digits.dfy` (module `Digits`) models `String(Int)` and the `%02i`
  conversion. `wrappers.dfy` holds `Option` and Swift's `Result`.

Foreign inputs become parameters:

- `draws: seq<int>` stands for the successive values of `Int.random(in:)`.
- `urlParses: string -> bool` stands for `URL(string:)`. It is used both for
  the request URL and for the `front_default` artwork URL.
- `TaskResult(data, error)` is what `URLSession`'s data task hands to its
  handler. A body is either not JSON (`Unparsable`) or a parsed `Document`.

Some behaviours one might expect of the app do not hold in the code; the
model follows the code:

- `fetchPokemon` never constructs a `PokeAPIError`. It hands `completion`
  the data task's own error, an `NSError` "No data received", or the
  decoder's error. `FetchError` models exactly these three.
- `requestedIds` is an immutable empty set. No id is ever excluded, the
  first draw is always taken (`FetchPokemon` ensures `id == draws[0]`), and
  the same id can be requested twice. `SampleId` is proved for an arbitrary
  exclusion set, so the intended exclusion property holds as well.
- The delivered pokemon's `id` is whatever the body says. It is not checked
  against the requested id or the range (`DeliveredIdIsNotChecked`).
- The fetch timer clears `isLoading` and resets `timeElapsed` straight away,
  in the same block that starts the request, not when the request completes.
  So `isLoading` is never set between two events (`Valid()`). The button's
  `disabled(isLoading)` gate therefore never actually blocks. It is still
  modelled, as `ShowPokemonPressed`'s first branch.

## Model

| member | source | states |
|---|---|---|
| `Digits.Decimal` | Pokedex/API/PokeAPI.swift:45 | `String(n)` for a non-negative `n` is a non-empty string of decimal digits |
| `Digits.DecimalCanonical` | Pokedex/API/PokeAPI.swift:45 | the digits denote `n`, with no leading zero unless `n == 0` |
| `Digits.DecimalInjective` | Pokedex/API/PokeAPI.swift:45 | distinct numbers never get the same decimal string |
| `Digits.Pad2` | Pokedex/View/PokedexView.swift:23 | `%02i` gives at least two characters; it starts with '-' exactly for a negative value, and otherwise is all digits denoting the value (`Pad2Value` pins it to two digits below 100) |
| `Digits.Pad2Value` | Pokedex/View/PokedexView.swift:23 | `%02i` of a value in `0..99` is exactly two digits denoting that value |
| `Json.KeyedContainer` | Pokedex/Model/Pokemon.swift:15-33 | a nested record opens only on a JSON object, whose members it yields; `null` gives `valueNotFound` at the container's path |
| `Json.Member` | Pokedex/Model/Pokemon.swift:22-24 | a declared key is found iff it is present, yielding its value; otherwise `keyNotFound` for that key at the container's path |
| `Json.DecodeInt` | Pokedex/Model/Pokemon.swift:11 | an `Int` property decodes iff the value is an integral number that fits 64 bits, and keeps that number |
| `Json.DecodeString` | Pokedex/Model/Pokemon.swift:12 | a `String` property decodes iff the value is a JSON string, and keeps it |
| `Json.DecodeUrl` | Pokedex/Model/Pokemon.swift:28 | a `URL` property decodes iff the value is a string that `URL(string:)` accepts; that string is the URL |
| `PokemonModel.DecodeOfficialArtwork` | Pokedex/Model/Pokemon.swift:27-33 | succeeds iff the value is an object whose "front_default" member is a URL string, which becomes `frontDefault`; failures are reported at or below the container's path |
| `PokemonModel.DecodeOther` | Pokedex/Model/Pokemon.swift:19-25 | success needs an object holding "official-artwork"; failures are reported at or below the container's path |
| `PokemonModel.DecodeSprites` | Pokedex/Model/Pokemon.swift:15-17 | success needs an object holding "other"; failures are reported at or below the container's path (`DecodeSpritesIff` gives the full condition) |
| `PokemonModel.DecodePokemon` | Pokedex/Model/Pokemon.swift:10-13 | on success `id` and `name` are the payload's members unchanged; a payload that is not an object fails at the top level (`DecodePokemonIff` gives the full condition) |
| `PokemonModel.DecodeBody` | Pokedex/API/PokeAPI.swift:62 | bytes that are not JSON fail as `dataCorrupted` at the top level; a body decodes iff it is a well-formed document, and then yields the record it describes |
| `PokemonModel.DecodeSpritesIff` | Pokedex/Model/Pokemon.swift:15-33 | `Sprites` decodes iff `other` → `official-artwork` → `front_default` leads to a string that parses as a URL, which becomes `frontDefault` |
| `PokemonModel.DecodePokemonIff` | Pokedex/Model/Pokemon.swift:10-34 | decoding succeeds iff `id` is an integer that fits Swift's 64-bit `Int`, `name` is a string and the artwork path ends in a URL string; the result then holds exactly those values, so `id` (the `Identifiable` key) is the JSON `id` unchanged |
| `PokemonModel.DecodeIgnoresUndeclaredKeys` | Pokedex/Model/Pokemon.swift:10-33 | removing every key that no property or `CodingKeys` declares, at every level, leaves the result, errors included, unchanged |
| `PokemonModel.OfficialArtworkKeyRequired` | Pokedex/Model/Pokemon.swift:19-24 | `officialArtwork` is read from "official-artwork": without that key decoding fails with `keyNotFound` at `sprites.other`, whatever other keys are present |
| `PokemonModel.FrontDefaultKeyRequired` | Pokedex/Model/Pokemon.swift:27-32 | `frontDefault` is read from "front_default": without it decoding fails with `keyNotFound` at `sprites.other.official-artwork` |
| `PokemonModel.DecodeSample` | PokedexTests/PokedexTests.swift:15-35 | the test's sample payload decodes to id 1, name "Bulbasaur" and the sample `official-artwork/1.png` URL |
| `PokemonModel.DecodeSampleWithoutFrontDefault` | Pokedex/Model/Pokemon.swift:27-32 | the sample without `front_default` fails with `keyNotFound("front_default")` |
| `PokeApi.ErrorDescription` | Pokedex/API/PokeAPI.swift:17-28 | every case has a description; it starts with "Network error: " exactly for `networkError`, and there the underlying description follows |
| `PokeApi.ErrorDescriptionInjective` | Pokedex/API/PokeAPI.swift:17-28 | different errors get different descriptions |
| `PokeApi.Respond` | Pokedex/API/PokeAPI.swift:51-66 | a transport error wins over any data and gives failure; missing data gives the "no data" failure; otherwise a failure carries the decoder's own error unchanged, and success happens iff no error and a well-formed body, with the described pokemon |
| `PokeApi.SampleId` | Pokedex/API/PokeAPI.swift:39-43 | the loop takes the first draw outside the exclusion set: the id lies in `lower..<upper`, is not excluded, and every earlier draw was excluded |
| `PokeApi.PokeApi.constructor` | Pokedex/API/PokeAPI.swift:34 | `requestedIds` is the empty set |
| `PokeApi.PokeApi.FetchPokemon` | Pokedex/API/PokeAPI.swift:38-68 | the id lies in `1..<801`, is not in `requestedIds` and is the first draw; `completion` is never called when the URL does not parse, and is called exactly once, with the handler's result, when it does |
| `PokeApi.PokeApi.RequestUrl` | Pokedex/API/PokeAPI.swift:32-45 | the URL is "https://pokeapi.co/api/v2/pokemon/" followed by digits denoting the id, with no sign and no leading zeros |
| `PokeApi.RequestUrlInjective` | Pokedex/API/PokeAPI.swift:45 | distinct ids give distinct request URLs |
| `PokeApi.DeliveredIdIsNotChecked` | Pokedex/API/PokeAPI.swift:61-63 | a body with `id` 900 is delivered as a success with id 900, outside the requested range |
| `PokedexView.Quot` | Pokedex/View/PokedexView.swift:21 | Swift's `/` agrees with Dafny's for non-negative dividends (and truncates towards zero otherwise, tied to `Rem` by `a == quotient * b + remainder`) |
| `PokedexView.Rem` | Pokedex/View/PokedexView.swift:21-22 | Swift's `%` keeps the dividend's sign, agrees with Dafny's for non-negative dividends, and satisfies `a == quotient * b + remainder` |
| `PokedexView.TimeString` | Pokedex/View/PokedexView.swift:20-24 | the label has at least five characters, and exactly five with ':' in the middle for a non-negative time (`TimeStringFormat` gives the digits) |
| `PokedexView.MinutesAndSeconds` | Pokedex/View/PokedexView.swift:21-22 | for `time >= 0` the minutes are `(time % 3600) / 60` and the seconds `time % 60`, both below 60 |
| `PokedexView.TimeStringFormat` | Pokedex/View/PokedexView.swift:20-24 | for `time >= 0` the label has five characters: two digits denoting the minutes, ':', two digits denoting the seconds |
| `PokedexView.TimeStringWraps` | Pokedex/View/PokedexView.swift:21-23 | `timeString(t + 3600) == timeString(t)` for `t >= 0` |
| `PokedexView.TimeStringSameLabel` | Pokedex/View/PokedexView.swift:21-23 | two non-negative times show the same label iff they agree modulo 3600 |
| `PokedexView.TimeStringExamples` | Pokedex/View/PokedexView.swift:20-24 | "00:00" for 0, "01:05" for 65, "01:01" for 3661, and "-1:-5" for -65 |
| `PokedexView.NewestFirst` | Pokedex/View/PokedexView.swift:84 | `reversed()` keeps the length (`NewestFirstAt` gives each position) |
| `PokedexView.NewestFirstAt` | Pokedex/View/PokedexView.swift:84 | position `k` of `reversed()` holds element `n - 1 - k` |
| `PokedexView.NewestFirstAppend` | Pokedex/View/PokedexView.swift:84 | an appended pokemon is shown first, ahead of the earlier order |
| `PokedexView.PokedexViewModel.constructor` | Pokedex/View/PokedexView.swift:11-14 | starts not loading, with no pokemons, the timer active and zero seconds elapsed |
| `PokedexView.PokedexViewModel.Displayed` | Pokedex/View/PokedexView.swift:84 | the grid shows the pokemons newest first |
| `PokedexView.PokedexViewModel.ClockTick` | Pokedex/View/PokedexView.swift:55-61 | `timeElapsed` grows by 1 while `timerIsActive` and nothing else changes; under the invariant (timer always active) it grows by exactly 1, and the invariant is kept |
| `PokedexView.PokedexViewModel.FetchPokemon` | Pokedex/View/PokedexView.swift:26-39 | changes nothing now; returns the results the completion will receive |
| `PokedexView.PokedexViewModel.Complete` | Pokedex/View/PokedexView.swift:27-38 | a success appends exactly that pokemon at the end; a failure leaves `pokemons` as it was; nothing else changes |
| `PokedexView.PokedexViewModel.FetchTick` | Pokedex/View/PokedexView.swift:62-69 | afterwards `isLoading` is false and `timeElapsed` is 0; `pokemons` and `timerIsActive` are unchanged; returns the pending results of the request |
| `PokedexView.PokedexViewModel.ShowPokemonPressed` | Pokedex/View/PokedexView.swift:98-116 | does nothing while loading; otherwise leaves `isLoading` false and starts one request; under the invariant the disabled branch never applies, so a request always starts; never touches `timeElapsed`, `pokemons` or `timerIsActive` |

## Left out

- SwiftUI layout and styling are presentation only and are not modelled. This covers `PokedexView.body` beyond its state updates, `PokemonCard`, the `View` extension and `PokedexApp`.
- `URLSession`, `dataTask(with:)`, `resume()` and the `response` argument are foreign I/O. The data task's outcome is the input `TaskResult`. Kingfisher image loading is not modelled.
- Timers, `DispatchQueue.main.async` and `withAnimation` are scheduling plumbing. Each event is a method call on one thread. A request's completion is the `pending` list returned when it starts, applied later with `Complete`. Interleavings of several requests in flight are not modelled.
- JSON text parsing is a library internal. A body is either `Unparsable` or an abstract `Json` tree, and duplicate keys are not representable. Which numeric literals JSONDecoder accepts as `Int` is simplified: an integral number that fits 64 bits is accepted, and any other number is `dataCorrupted`.
- `URL(string:)` is the parameter `urlParses`. A URL's `absoluteString` is taken to be the string it was made from.
- `Int.random(in:)` is the oracle `draws`. Uniformity is not modelled. The loop does not terminate when every draw is excluded, so the sampling methods require some draw outside the exclusion set.
- `print(error.localizedDescription)` in the failure branch is logging and is not modelled. The descriptions of Foundation's own errors are not modelled either.
- The `StopTimerButton` action is an empty TODO, so it has no method. `timerIsActive` is never written.
- `String.capitalized` in `PokemonCard` depends on the locale and is not modelled.
- `PokedexView.PokedexViewModel.ClockTick`: does not model the trap of Swift's `Int` overflow at `Int.max`, because `timeElapsed` is an unbounded integer here.
- `Digits.Pad2`: does not model how `String(format:)` reads a 64-bit `Int` for `%i`. The values formatted are always within `-59..59`.
