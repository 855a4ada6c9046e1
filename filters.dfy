/** The pure part of the page controller: the filter predicate and the filtered
    list, the distinct genres that feed the category control, and the shape of
    the rendered view. */
module Filters {
  import opened Games

  /** The selector value that disables a filter. */
  const All: string := "all"

  /** The placeholder shown when no game passes the filters. */
  const NoMatchesMessage: string := "No games match your filters"

  // ---------------------------------------------------------------------------
  // Substring search (`String.prototype.includes`)

  predicate StartsWith(s: string, prefix: string) {
    |prefix| <= |s| && s[..|prefix|] == prefix
  }

  /** `s.includes(sub)`: `sub` occurs in `s` at some position (the empty string occurs everywhere). */
  predicate Includes(s: string, sub: string)
    decreases |s|
  {
    StartsWith(s, sub) || (s != [] && Includes(s[1..], sub))
  }

  /** `sub` occurs in `s` starting at position `i`. */
  predicate OccursAt(s: string, sub: string, i: int) {
    0 <= i <= |s| - |sub| && s[i..i + |sub|] == sub
  }

  /** `Includes` agrees with the positional definition of an occurrence. */
  lemma {:induction false} IncludesIff(s: string, sub: string)
    ensures Includes(s, sub) <==> exists i :: OccursAt(s, sub, i)
    decreases |s|
  {
    if StartsWith(s, sub) {
      assert OccursAt(s, sub, 0);
    }
    if s != [] {
      IncludesIff(s[1..], sub);
      if Includes(s[1..], sub) {
        var i :| OccursAt(s[1..], sub, i);
        assert s[i + 1..i + 1 + |sub|] == s[1..][i..i + |sub|];
        assert OccursAt(s, sub, i + 1);
      }
      if i :| OccursAt(s, sub, i) && i > 0 {
        assert s[1..][i - 1..i - 1 + |sub|] == s[i..i + |sub|];
        assert OccursAt(s[1..], sub, i - 1);
      }
    }
  }

  /** A non-empty pattern whose first character does not occur in `s` is not included in `s`. */
  lemma {:induction false} MissingFirstCharNotIncluded(s: string, sub: string)
    requires |sub| > 0 && forall k :: 0 <= k < |s| ==> s[k] != sub[0]
    ensures !Includes(s, sub)
    decreases |s|
  {
    if |sub| <= |s| {
      assert s[..|sub|][0] == s[0];
    }
    if s != [] {
      MissingFirstCharNotIncluded(s[1..], sub);
    }
  }

  // ---------------------------------------------------------------------------
  // Filtering

  /** `xs` is `ys` with some elements dropped and the rest kept in order. */
  predicate IsSubsequence<T(==)>(xs: seq<T>, ys: seq<T>)
    decreases |ys|
  {
    xs == [] || (ys != [] && ((xs[0] == ys[0] && IsSubsequence(xs[1..], ys[1..])) || IsSubsequence(xs, ys[1..])))
  }

  /** `Array.prototype.filter` over games: a fresh list of the elements that pass `keep`, in order. */
  function Where(s: seq<Game>, keep: Game -> bool): (r: seq<Game>)
    ensures IsSubsequence(r, s)
    ensures forall g :: g in r <==> g in s && keep(g)
  {
    if s == [] then []
    else if keep(s[0]) then
      var rest := Where(s[1..], keep);
      assert ([s[0]] + rest)[1..] == rest;
      [s[0]] + rest
    else Where(s[1..], keep)
  }

  /** `filter` keeps every occurrence of a passing element: each passing game
      occurs in the result as often as in the input, and no other game occurs. */
  lemma {:induction false} WhereKeepsEveryOccurrence(s: seq<Game>, keep: Game -> bool)
    ensures forall g :: multiset(Where(s, keep))[g] == if keep(g) then multiset(s)[g] else 0
    decreases |s|
  {
    if s != [] {
      WhereKeepsEveryOccurrence(s[1..], keep);
      assert s == [s[0]] + s[1..];
    }
  }

  /** The platform test: the game's platform contains the selected text. */
  function OnPlatform(platform: string): Game -> bool {
    (g: Game) => Includes(g.platform, platform)
  }

  /** The category test: the game's genre is exactly the selected one. */
  function OfGenre(category: string): Game -> bool {
    (g: Game) => g.genre == category
  }

  /** Whether a game is shown under the two selector values. */
  predicate Matches(g: Game, platform: string, category: string) {
    (platform == All || Includes(g.platform, platform)) && (category == All || g.genre == category)
  }

  /** Reference definition of the filtered view: one pass keeping the matching games. */
  function Matching(all: seq<Game>, platform: string, category: string): (r: seq<Game>)
    ensures IsSubsequence(r, all)
    ensures forall g :: g in r <==> g in all && Matches(g, platform, category)
  {
    if all == [] then []
    else if Matches(all[0], platform, category) then
      var rest := Matching(all[1..], platform, category);
      assert ([all[0]] + rest)[1..] == rest;
      [all[0]] + rest
    else Matching(all[1..], platform, category)
  }

  /** Each matching game occurs in the reference filter as often as in the catalogue. */
  lemma {:induction false} MatchingKeepsEveryOccurrence(all: seq<Game>, platform: string, category: string)
    ensures forall g :: multiset(Matching(all, platform, category))[g] ==
                          if Matches(g, platform, category) then multiset(all)[g] else 0
    decreases |all|
  {
    if all != [] {
      MatchingKeepsEveryOccurrence(all[1..], platform, category);
      assert all == [all[0]] + all[1..];
    }
  }

  /** With both selectors at "all" every game matches. */
  lemma {:induction false} MatchingAllAll(all: seq<Game>)
    ensures Matching(all, All, All) == all
  {
    if all != [] {
      MatchingAllAll(all[1..]);
    }
  }

  /** The platform pass of `filterGames` keeps exactly the games matching the platform alone. */
  lemma {:induction false} PlatformPass(all: seq<Game>, platform: string)
    requires platform != All
    ensures Where(all, OnPlatform(platform)) == Matching(all, platform, All)
  {
    if all != [] {
      PlatformPass(all[1..], platform);
    }
  }

  /** The genre pass applied to the platform-filtered list gives the games matching both. */
  lemma {:induction false} GenrePass(all: seq<Game>, platform: string, category: string)
    requires category != All
    ensures Where(Matching(all, platform, All), OfGenre(category)) == Matching(all, platform, category)
  {
    if all != [] {
      GenrePass(all[1..], platform, category);
      var rest := Matching(all[1..], platform, All);
      if Matches(all[0], platform, All) {
        assert Matching(all, platform, All) == [all[0]] + rest;
        assert ([all[0]] + rest)[1..] == rest;
      }
    }
  }

  /** `filterGames`: copy the list, narrow it by platform unless "all", then by
      genre unless "all". The result is the reference filter, so it is an
      order-preserving selection of exactly the matching games; with both
      selectors at "all" it is the whole list. */
  function Filtered(all: seq<Game>, platform: string, category: string): (r: seq<Game>)
    ensures r == Matching(all, platform, category)
    ensures IsSubsequence(r, all)
    ensures forall g :: g in r <==> g in all && Matches(g, platform, category)
    ensures platform == All && category == All ==> r == all
  {
    var copy := all;
    var byPlatform := if platform != All then Where(copy, OnPlatform(platform)) else copy;
    var byGenre := if category != All then Where(byPlatform, OfGenre(category)) else byPlatform;
    assert byGenre == Matching(all, platform, category) by {
      if platform != All { PlatformPass(all, platform); } else { MatchingAllAll(all); }
      if category != All { GenrePass(all, platform, category); }
    }
    byGenre
  }

  /** The filtered list drops no occurrence of a matching game. */
  lemma FilteredKeepsEveryOccurrence(all: seq<Game>, platform: string, category: string)
    ensures forall g :: multiset(Filtered(all, platform, category))[g] ==
                          if Matches(g, platform, category) then multiset(all)[g] else 0
  {
    MatchingKeepsEveryOccurrence(all, platform, category);
  }

  /** Two records, one "Shooter" and one "MMORPG", both on "PC (Windows)": selecting
      the "Shooter" category keeps only the first; selecting the "Mac" platform keeps none. */
  lemma FilterExample(shooter: Game, mmorpg: Game)
    requires shooter.genre == "Shooter" && shooter.platform == "PC (Windows)"
    requires mmorpg.genre == "MMORPG" && mmorpg.platform == "PC (Windows)"
    ensures Filtered([shooter, mmorpg], All, "Shooter") == [shooter]
    ensures Filtered([shooter, mmorpg], "Mac", All) == []
  {
    var both := [shooter, mmorpg];
    assert both[1..] == [mmorpg] && [mmorpg][1..] == [];
    assert Matches(shooter, All, "Shooter") && !Matches(mmorpg, All, "Shooter");
    assert Matching(both, All, "Shooter") == [shooter];
    MissingFirstCharNotIncluded("PC (Windows)", "Mac");
    assert !Matches(shooter, "Mac", All) && !Matches(mmorpg, "Mac", All);
    assert Matching(both, "Mac", All) == [];
  }

  // ---------------------------------------------------------------------------
  // Distinct genres

  /** `allGames.map(game => game.genre)`. */
  function Genres(games: seq<Game>): (r: seq<string>)
    ensures |r| == |games|
    ensures forall i :: 0 <= i < |r| ==> r[i] == games[i].genre
  {
    if games == [] then [] else [games[0].genre] + Genres(games[1..])
  }

  predicate NoDuplicates(xs: seq<string>) {
    forall i, j :: 0 <= i < j < |xs| ==> xs[i] != xs[j]
  }

  /** `[...new Set(xs)]`: insert the elements left to right, skipping those already present. */
  function Distinct(xs: seq<string>): (r: seq<string>)
    ensures NoDuplicates(r)
    ensures forall x :: x in r <==> x in xs
    decreases |xs|
  {
    if xs == [] then []
    else
      var d := Distinct(xs[..|xs| - 1]);
      var last := xs[|xs| - 1];
      assert forall x :: x in xs <==> x in xs[..|xs| - 1] || x == last by {
        assert xs == xs[..|xs| - 1] + [last];
      }
      if last in d then d else d + [last]
  }

  /** Position of the first occurrence of `x` in `xs`. */
  function IndexOf(xs: seq<string>, x: string): (i: nat)
    requires x in xs
    ensures i < |xs| && xs[i] == x
    ensures forall k :: 0 <= k < i ==> xs[k] != x
  {
    if xs[0] == x then 0 else 1 + IndexOf(xs[1..], x)
  }

  /** Appending an element does not move the first occurrence of an element already present. */
  lemma IndexOfAppend(p: seq<string>, x: string, y: string)
    requires y in p
    ensures IndexOf(p + [x], y) == IndexOf(p, y)
  {
    var i, j := IndexOf(p + [x], y), IndexOf(p, y);
    assert (p + [x])[j] == y;
    assert i <= j;
    assert p[i] == (p + [x])[i];
  }

  /** The distinct elements appear in the order of their first occurrence. */
  lemma {:induction false} DistinctFirstSeenOrder(xs: seq<string>)
    ensures forall i, j :: 0 <= i < j < |Distinct(xs)| ==>
              IndexOf(xs, Distinct(xs)[i]) < IndexOf(xs, Distinct(xs)[j])
    decreases |xs|
  {
    if xs != [] {
      var p, last := xs[..|xs| - 1], xs[|xs| - 1];
      var d := Distinct(p);
      DistinctFirstSeenOrder(p);
      assert xs == p + [last];
      forall y | y in p
        ensures IndexOf(xs, y) == IndexOf(p, y)
      {
        IndexOfAppend(p, last, y);
      }
      if last !in d {
        assert IndexOf(xs, last) == |p|;
      }
    }
  }

  /** The example of a category list: [A, B, A, C] gives [A, B, C]. */
  lemma DistinctExample()
    ensures Distinct(["A", "B", "A", "C"]) == ["A", "B", "C"]
  {
    assert ["A", "B", "A", "C"][..3] == ["A", "B", "A"];
    assert ["A", "B", "A"][..2] == ["A", "B"];
    assert ["A", "B"][..1] == ["A"];
    assert ["A"][..0] == [];
  }

  /** The genres offered by the category control: distinct, all of them, in first-seen order. */
  function DistinctGenres(games: seq<Game>): (r: seq<string>)
    ensures NoDuplicates(r)
    ensures forall x :: x in r <==> exists i :: 0 <= i < |games| && games[i].genre == x
  {
    var genres := Genres(games);
    assert forall x :: x in genres <==> exists i :: 0 <= i < |games| && games[i].genre == x by {
      forall x | x in genres ensures exists i :: 0 <= i < |games| && games[i].genre == x {
        var i :| 0 <= i < |genres| && genres[i] == x;
      }
    }
    Distinct(genres)
  }

  // ---------------------------------------------------------------------------
  // The rendered view

  /** What the games container shows: the "no matches" placeholder or one card per game. */
  datatype ViewItem = NoMatches(message: string) | Card(game: Game)

  /** One card per game, in order. */
  function Cards(games: seq<Game>): (v: seq<ViewItem>)
    ensures |v| == |games|
    ensures forall i :: 0 <= i < |v| ==> v[i] == Card(games[i])
  {
    if games == [] then [] else [Card(games[0])] + Cards(games[1..])
  }

  /** `renderGames`: the placeholder alone for an empty list, else one card per game. */
  function Rendered(games: seq<Game>): (v: seq<ViewItem>)
    ensures |v| >= 1
    ensures games == [] ==> v == [NoMatches(NoMatchesMessage)]
    ensures games != [] ==> |v| == |games| && forall i :: 0 <= i < |v| ==> v[i] == Card(games[i])
  {
    if games == [] then [NoMatches(NoMatchesMessage)] else Cards(games)
  }

  /** The games a view shows, read back from its cards. */
  function Shown(v: seq<ViewItem>): (games: seq<Game>)
    ensures |games| <= |v|
  {
    if v == [] then []
    else (if v[0].Card? then [v[0].game] else []) + Shown(v[1..])
  }

  /** Rendering loses nothing: the cards give back the games, in order. */
  lemma {:induction false} RenderedRoundTrip(games: seq<Game>)
    ensures Shown(Rendered(games)) == games
    decreases |games|
  {
    if games != [] {
      var v := Rendered(games);
      if |games| > 1 {
        RenderedRoundTrip(games[1..]);
        assert v[1..] == Rendered(games[1..]);
      } else {
        assert v[1..] == [];
      }
    }
  }
}
