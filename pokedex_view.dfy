/**
 * The view model behind the Pokedex screen: the elapsed-time label, the four
 * events that change its state, and the newest-first order in which the list
 * of pokemons is shown.
 */
module PokedexView {
  import opened Wrappers
  import opened Digits
  import opened PokemonModel
  import opened PokeApi

  // ---------------------------------------------------------------------------
  // Swift's integer `/` and `%`, which truncate towards zero.

  function Quot(a: int, b: int): (q: int)
    requires b > 0
    ensures a >= 0 ==> q == a / b
  {
    if a >= 0 then a / b else -((-a) / b)
  }

  /** The remainder takes the dividend's sign, and `a == Quot(a, b) * b + Rem(a, b)`. */
  function Rem(a: int, b: int): (r: int)
    requires b > 0
    ensures Quot(a, b) * b + r == a
    ensures a >= 0 ==> r == a % b
    ensures a < 0 ==> -b < r <= 0
  {
    if a >= 0 then a % b else -((-a) % b)
  }

  /**
   * `timeString(time:)`: `String(format: "%02i:%02i", minutes, seconds)`. At
   * least five characters; exactly five, with the colon in the middle, for a
   * non-negative time.
   */
  function TimeString(time: int): (s: string)
    ensures |s| >= 5
    ensures time >= 0 ==> |s| == 5 && s[2] == ':'
  {
    var minutes, seconds := Quot(Rem(time, 3600), 60), Rem(time, 60);
    if time >= 0 then
      MinutesAndSeconds(time);
      Pad2Value(minutes);
      Pad2Value(seconds);
      Pad2(minutes) + ":" + Pad2(seconds)
    else
      Pad2(minutes) + ":" + Pad2(seconds)
  }

  /** For a non-negative time, Swift's truncating operators agree with Dafny's, and both fields are below 60. */
  lemma MinutesAndSeconds(time: int)
    requires time >= 0
    ensures Quot(Rem(time, 3600), 60) == (time % 3600) / 60 < 60
    ensures Rem(time, 60) == time % 60 < 60
  {
  }

  /**
   * For a non-negative time the label is "MM:SS": five characters, two digits
   * of `(time % 3600) / 60`, a colon, two digits of `time % 60`, both below 60.
   */
  lemma TimeStringFormat(time: int)
    requires time >= 0
    ensures var s := TimeString(time);
      |s| == 5 && s[2] == ':' && AllDigits(s[..2]) && AllDigits(s[3..]) &&
      DecimalValue(s[..2]) == (time % 3600) / 60 < 60 &&
      DecimalValue(s[3..]) == time % 60 < 60
  {
    MinutesAndSeconds(time);
    var minutes, seconds := (time % 3600) / 60, time % 60;
    Pad2Value(minutes);
    Pad2Value(seconds);
    var s := TimeString(time);
    assert s == Pad2(minutes) + ":" + Pad2(seconds);
    assert s[..2] == Pad2(minutes) && s[3..] == Pad2(seconds);
  }

  /** The label wraps around every hour. */
  lemma TimeStringWraps(time: int)
    requires time >= 0
    ensures TimeString(time + 3600) == TimeString(time)
  {
  }

  /** Two non-negative times show the same label exactly when they agree modulo one hour. */
  lemma TimeStringSameLabel(a: int, b: int)
    requires a >= 0 && b >= 0
    ensures TimeString(a) == TimeString(b) <==> a % 3600 == b % 3600
  {
    TimeStringFormat(a);
    TimeStringFormat(b);
    SecondsWithinHour(a);
    SecondsWithinHour(b);
  }

  lemma SecondsWithinHour(t: int)
    requires t >= 0
    ensures t % 3600 == (t % 3600) / 60 * 60 + t % 60
  {
    var h, r := t / 3600, t % 3600;
    assert t == h * 3600 + r;
    assert t == (h * 60) * 60 + r && 0 <= r < 3600;
    assert (r / 60) * 60 + r % 60 == r;
    assert t == (h * 60 + r / 60) * 60 + r % 60 && 0 <= r % 60 < 60;
  }

  lemma TimeStringExamples()
    ensures TimeString(0) == "00:00"
    ensures TimeString(65) == "01:05"
    ensures TimeString(3661) == "01:01"
    ensures TimeString(-65) == "-1:-5"
  {
  }

  // ---------------------------------------------------------------------------
  // Display order.

  /** `pokemons.reversed()`: the newest pokemon first. */
  function NewestFirst(s: seq<Pokemon>): (r: seq<Pokemon>)
    ensures |r| == |s|
  {
    if s == [] then [] else [s[|s| - 1]] + NewestFirst(s[..|s| - 1])
  }

  lemma {:induction false} NewestFirstAt(s: seq<Pokemon>, k: int)
    requires 0 <= k < |s|
    ensures NewestFirst(s)[k] == s[|s| - 1 - k]
  {
    if k > 0 {
      NewestFirstAt(s[..|s| - 1], k - 1);
    }
  }

  /** A newly appended pokemon is shown first, ahead of the ones shown before. */
  lemma NewestFirstAppend(s: seq<Pokemon>, p: Pokemon)
    ensures NewestFirst(s + [p]) == [p] + NewestFirst(s)
  {
    assert (s + [p])[..|s|] == s;
  }

  // ---------------------------------------------------------------------------
  // The view model.

  class PokedexViewModel {
    var isLoading: bool
    var pokemons: seq<Pokemon>
    var timerIsActive: bool
    var timeElapsed: int
    const pokeAPI: PokeApi

    /**
     * What holds between events: the counter is never negative, nothing ever
     * clears `timerIsActive`, and `isLoading` is set and cleared within the same
     * event, so it is never seen set.
     */
    ghost predicate Valid()
      reads this
    {
      timeElapsed >= 0 && timerIsActive && !isLoading
    }

    constructor()
      ensures Valid()
      ensures !isLoading && pokemons == [] && timerIsActive && timeElapsed == 0
    {
      isLoading := false;
      pokemons := [];
      timerIsActive := true;
      timeElapsed := 0;
      pokeAPI := new PokeApi();
    }

    /** The list as the grid shows it. */
    function Displayed(): (r: seq<Pokemon>)
      reads this
      ensures |r| == |pokemons|
      ensures forall k | 0 <= k < |r| :: r[k] == pokemons[|pokemons| - 1 - k]
    {
      forall k | 0 <= k < |pokemons| ensures NewestFirst(pokemons)[k] == pokemons[|pokemons| - 1 - k] {
        NewestFirstAt(pokemons, k);
      }
      NewestFirst(pokemons)
    }

    /** The one-second clock: counts a second while the timer is active. */
    method ClockTick()
      modifies this`timeElapsed
      ensures timeElapsed == old(timeElapsed) + (if timerIsActive then 1 else 0)
      ensures isLoading == old(isLoading) && pokemons == old(pokemons) && timerIsActive == old(timerIsActive)
      ensures old(Valid()) ==> Valid() && timeElapsed == old(timeElapsed) + 1
    {
      if timerIsActive {
        timeElapsed := timeElapsed + 1;
      }
    }

    /**
     * `fetchPokemon()`: starts a request through `pokeAPI`. The request is
     * asynchronous, so nothing changes now; `pending` lists the results its
     * completion will be called with later (see `Complete`).
     */
    method FetchPokemon(draws: seq<int>, urlParses: string -> bool, task: TaskResult)
      returns (pending: seq<FetchResult>)
      requires forall k | 0 <= k < |draws| :: pokeAPI.rangeLower <= draws[k] < pokeAPI.rangeUpper
      requires exists k | 0 <= k < |draws| :: draws[k] !in pokeAPI.requestedIds
      ensures draws[0] >= 0
      ensures pending == if urlParses(pokeAPI.RequestUrl(draws[0])) then [Respond(task, urlParses)] else []
    {
      var id;
      id, pending := pokeAPI.FetchPokemon(draws, urlParses, task);
    }

    /**
     * The completion handler: a success appends the pokemon at the end, a
     * failure is only logged.
     */
    method Complete(result: FetchResult)
      modifies this`pokemons
      ensures pokemons == if result.Success? then old(pokemons) + [result.value] else old(pokemons)
      ensures isLoading == old(isLoading) && timeElapsed == old(timeElapsed) && timerIsActive == old(timerIsActive)
      ensures old(Valid()) ==> Valid()
    {
      match result {
        case Success(pokemon) => pokemons := pokemons + [pokemon];
        case Failure(_) =>
      }
    }

    /**
     * The thirty-second timer: raises and lowers `isLoading` around starting a
     * request and resets the counter; the list changes only when the request
     * completes.
     */
    method FetchTick(draws: seq<int>, urlParses: string -> bool, task: TaskResult)
      returns (pending: seq<FetchResult>)
      requires forall k | 0 <= k < |draws| :: pokeAPI.rangeLower <= draws[k] < pokeAPI.rangeUpper
      requires exists k | 0 <= k < |draws| :: draws[k] !in pokeAPI.requestedIds
      modifies this`isLoading, this`timeElapsed
      ensures !isLoading && timeElapsed == 0
      ensures pokemons == old(pokemons) && timerIsActive == old(timerIsActive)
      ensures draws[0] >= 0
      ensures pending == if urlParses(pokeAPI.RequestUrl(draws[0])) then [Respond(task, urlParses)] else []
      ensures old(Valid()) ==> Valid()
    {
      isLoading := true;
      pending := FetchPokemon(draws, urlParses, task);
      isLoading := false;
      timeElapsed := 0;
    }

    /**
     * The "Mostrar pokemon" button: disabled while `isLoading`; otherwise like
     * the timer's fetch, except that the counter is left alone.
     */
    method ShowPokemonPressed(draws: seq<int>, urlParses: string -> bool, task: TaskResult)
      returns (pending: seq<FetchResult>)
      requires forall k | 0 <= k < |draws| :: pokeAPI.rangeLower <= draws[k] < pokeAPI.rangeUpper
      requires exists k | 0 <= k < |draws| :: draws[k] !in pokeAPI.requestedIds
      modifies this`isLoading
      ensures old(isLoading) ==> isLoading && pending == []
      ensures !old(isLoading) ==>
        (!isLoading && draws[0] >= 0 &&
         pending == if urlParses(pokeAPI.RequestUrl(draws[0])) then [Respond(task, urlParses)] else [])
      ensures pokemons == old(pokemons) && timeElapsed == old(timeElapsed) && timerIsActive == old(timerIsActive)
      ensures old(Valid()) ==> Valid()
      ensures old(Valid()) ==>
        pending == if urlParses(pokeAPI.RequestUrl(draws[0])) then [Respond(task, urlParses)] else []
    {
      if isLoading {
        return [];
      }
      isLoading := true;
      pending := FetchPokemon(draws, urlParses, task);
      isLoading := false;
    }
  }
}
