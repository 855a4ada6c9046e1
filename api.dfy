/** The fetch fallback chain of the API object and its built-in sample dataset. */
module Api {
  import opened Games

  /** What one strategy does when it is awaited: it throws (or its promise
      rejects) with a message, or it returns a value that may be absent. */
  datatype Attempt = Threw(message: string) | Returned(result: Option<seq<Game>>)

  /** The chain accepts a result only when it is present and has at least one record. */
  predicate Usable(a: Attempt) {
    a.Returned? && a.result.Some? && |a.result.value| > 0
  }

  /** Index of the first usable attempt, or `|attempts|` when there is none. */
  function FirstUsable(attempts: seq<Attempt>): (k: nat)
    ensures k <= |attempts|
    ensures forall j :: 0 <= j < k ==> !Usable(attempts[j])
    ensures k < |attempts| ==> Usable(attempts[k])
  {
    if attempts == [] then 0
    else if Usable(attempts[0]) then 0
    else 1 + FirstUsable(attempts[1..])
  }

  /** What the chain yields: the records of the first usable attempt, else the empty list. */
  function ChainResult(attempts: seq<Attempt>): (games: seq<Game>)
    ensures games != [] <==> exists i :: 0 <= i < |attempts| && Usable(attempts[i])
    ensures games != [] ==> exists i :: 0 <= i < |attempts| && attempts[i] == Returned(Some(games))
  {
    var k := FirstUsable(attempts);
    if k < |attempts| then attempts[k].result.value else []
  }

  /** `fetchGames`: await each strategy in order, skip the ones that throw or
      return an absent or empty result, and return the first non-empty result.
      `invoked` counts the strategies that were awaited. */
  method FetchGames(attempts: seq<Attempt>) returns (games: seq<Game>, ghost invoked: nat)
    ensures games == ChainResult(attempts)
    ensures invoked == if FirstUsable(attempts) < |attempts| then FirstUsable(attempts) + 1 else |attempts|
  {
    invoked := 0;
    for i := 0 to |attempts|
      invariant invoked == i
      invariant forall j :: 0 <= j < i ==> !Usable(attempts[j])
    {
      invoked := invoked + 1;
      match attempts[i]
      case Threw(_) =>
        // the failure is logged and the next strategy is tried
      case Returned(result) =>
        if result.Some? && |result.value| > 0 {
          return result.value, invoked;
        }
    }
    return [], invoked;
  }

  /** The platform and genre tags that occur in the sample. */
  const PcWindows: string := "PC (Windows)"
  const Mmorpg: string := "MMORPG"
  const Shooter: string := "Shooter"

  /** The fixed sample dataset that the last strategy returns. */
  function SampleGames(): (games: seq<Game>)
    ensures |games| == 8
    ensures forall i :: 0 <= i < |games| ==>
              games[i].id == i + 1 && games[i].platform == PcWindows &&
              (games[i].genre == Mmorpg || games[i].genre == Shooter)
  {
    [Dauntless, WorldOfTanks, Warframe, Crsed, Crossout, ApexLegends, Fortnite, GuildWars2]
  }

  // The eight sample records, in the order of the literal they come from.

  const Dauntless: Game :=
    Game(1, "Dauntless", "https://www.freetogame.com/g/1/thumbnail.jpg",
      "A free-to-play, co-op action RPG with gameplay similar to Monster Hunter.",
      "https://www.freetogame.com/open/dauntless", Mmorpg, PcWindows,
      "Phoenix Labs", "Phoenix Labs", "2019-05-21")

  const WorldOfTanks: Game :=
    Game(2, "World of Tanks", "https://www.freetogame.com/g/2/thumbnail.jpg",
      "A team-based free-to-play MMO action game dedicated to armored warfare.",
      "https://www.freetogame.com/open/world-of-tanks", Shooter, PcWindows,
      "Wargaming", "Wargaming", "2011-04-12")

  const Warframe: Game :=
    Game(3, "Warframe", "https://www.freetogame.com/g/3/thumbnail.jpg",
      "A cooperative free-to-play third person online action shooter set in an evolving sci-fi world.",
      "https://www.freetogame.com/open/warframe", Shooter, PcWindows,
      "Digital Extremes", "Digital Extremes", "2013-03-25")

  const Crsed: Game :=
    Game(4, "CRSED: F.O.A.D.", "https://www.freetogame.com/g/4/thumbnail.jpg",
      "Take the battle royale genre and add superpowers and you have CRSED: F.O.A.D. (Aka Cuisine Royale: Second Edition)",
      "https://www.freetogame.com/open/crsed", Shooter, PcWindows,
      "Gaijin Entertainment", "Darkflow Software", "2019-12-12")

  const Crossout: Game :=
    Game(5, "Crossout", "https://www.freetogame.com/g/5/thumbnail.jpg",
      "A post-apocalyptic MMO vehicle combat game! ",
      "https://www.freetogame.com/open/crossout", Shooter, PcWindows,
      "Targem", "Gaijin", "2017-05-30")

  const ApexLegends: Game :=
    Game(6, "Apex Legends", "https://www.freetogame.com/g/23/thumbnail.jpg",
      "A free-to-play battle royale game where legendary characters battle for glory and fortune!",
      "https://www.freetogame.com/open/apex-legends", Shooter, PcWindows,
      "Electronic Arts", "Respawn Entertainment", "2019-02-04")

  const Fortnite: Game :=
    Game(7, "Fortnite", "https://www.freetogame.com/g/57/thumbnail.jpg",
      "A free-to-play battle royale game with building mechanics and fast-paced combat.",
      "https://www.freetogame.com/open/fortnite", Shooter, PcWindows,
      "Epic Games", "Epic Games", "2017-07-25")

  const GuildWars2: Game :=
    Game(8, "Guild Wars 2", "https://www.freetogame.com/g/11/thumbnail.jpg",
      "A free-to-play MMORPG with dynamic events and customizable combat.",
      "https://www.freetogame.com/open/guild-wars-2", Mmorpg, PcWindows,
      "ArenaNet", "ArenaNet", "2012-08-28")

  /** `fetchWithApiSample`: the last strategy, which always returns the sample. */
  function SampleAttempt(): (a: Attempt)
    ensures Usable(a)
  {
    Returned(Some(SampleGames()))
  }

  /** The strategy list of `fetchGames`, given the outcomes of the four network
      strategies (direct, cors-anywhere, allorigins, JSONP) in trial order. */
  function Strategies(direct: Attempt, corsAnywhere: Attempt, allOrigins: Attempt, jsonp: Attempt): (s: seq<Attempt>)
    ensures |s| == 5 && Usable(s[4])
  {
    [direct, corsAnywhere, allOrigins, jsonp, SampleAttempt()]
  }

  /** A strategy that fails, or returns an absent or empty result, hands over to the rest of the chain. */
  lemma FailureAdvances(a: Attempt, rest: seq<Attempt>)
    requires !Usable(a)
    ensures FirstUsable([a] + rest) == 1 + FirstUsable(rest)
    ensures ChainResult([a] + rest) == ChainResult(rest)
  {
  }

  /** A whole prefix of failing strategies is skipped. */
  lemma {:induction false} FailedPrefixSkipped(failed: seq<Attempt>, rest: seq<Attempt>)
    requires forall j :: 0 <= j < |failed| ==> !Usable(failed[j])
    ensures FirstUsable(failed + rest) == |failed| + FirstUsable(rest)
    ensures ChainResult(failed + rest) == ChainResult(rest)
  {
    if failed == [] {
      assert failed + rest == rest;
    } else {
      FailedPrefixSkipped(failed[1..], rest);
      assert failed + rest == [failed[0]] + (failed[1..] + rest);
      FailureAdvances(failed[0], failed[1..] + rest);
    }
  }

  /** Once a strategy has succeeded, whatever the later strategies would do is irrelevant. */
  lemma LaterStrategiesIgnored(attempts: seq<Attempt>, later: seq<Attempt>)
    requires FirstUsable(attempts) < |attempts|
    ensures FirstUsable(attempts + later) == FirstUsable(attempts)
    ensures ChainResult(attempts + later) == ChainResult(attempts)
  {
    var k := FirstUsable(attempts);
    assert (attempts + later)[k] == attempts[k];
    assert forall j :: 0 <= j < k ==> (attempts + later)[j] == attempts[j];
  }

  /** With the sample dataset last in the list, the chain never yields the empty list;
      when all four network strategies fail it yields exactly the sample. */
  lemma ChainNeverEmpty(direct: Attempt, corsAnywhere: Attempt, allOrigins: Attempt, jsonp: Attempt)
    ensures ChainResult(Strategies(direct, corsAnywhere, allOrigins, jsonp)) != []
    ensures !Usable(direct) && !Usable(corsAnywhere) && !Usable(allOrigins) && !Usable(jsonp) ==>
              ChainResult(Strategies(direct, corsAnywhere, allOrigins, jsonp)) == SampleGames()
  {
  }
}
