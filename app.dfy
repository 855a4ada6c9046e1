/** The page controller: it loads the catalogue once, fills the category
    control, renders the cards and re-renders on every filter change. */
module App {
  import opened Games
  import Api
  import opened Filters

  /** The text the loading element shows when the catalogue came back empty. */
  const FailureMessage: string := "Failed to load games. Please try again later."

  /** An `<option>` of the category control: its value and its visible text. */
  datatype CategoryOption = CategoryOption(value: string, text: string)

  /** One option per genre, in order, each with the genre as value and text. */
  function GenreOptions(genres: seq<string>): (opts: seq<CategoryOption>)
    ensures |opts| == |genres|
    ensures forall i :: 0 <= i < |opts| ==> opts[i] == CategoryOption(genres[i], genres[i])
  {
    if genres == [] then [] else [CategoryOption(genres[0], genres[0])] + GenreOptions(genres[1..])
  }

  /** The state the controller keeps: the loaded catalogue, the page elements it
      writes (loading element, category control, games container) and the two
      selector values it reads. */
  class Controller {
    var allGames: seq<Game>
    var loadingText: string
    var loadingShown: bool
    var categoryOptions: seq<CategoryOption>
    var platformValue: string
    var categoryValue: string
    var view: seq<ViewItem>
    var listenersWired: bool

    /** Once the change listeners are wired, the container shows the filtered catalogue. */
    ghost predicate Consistent()
      reads this
    {
      listenersWired ==> view == Rendered(Filtered(allGames, platformValue, categoryValue))
    }

    /** The page as loaded: an empty catalogue, the loading element visible, the
        category control holding its markup options and both selectors at "all". */
    constructor(loadingMessage: string, markupOptions: seq<CategoryOption>)
      ensures allGames == [] && loadingText == loadingMessage && loadingShown
      ensures categoryOptions == markupOptions
      ensures platformValue == All && categoryValue == All
      ensures view == [] && !listenersWired
    {
      allGames := [];
      loadingText := loadingMessage;
      loadingShown := true;
      categoryOptions := markupOptions;
      platformValue, categoryValue := All, All;
      view := [];
      listenersWired := false;
    }

    /** `init`: fetch the catalogue through the strategy chain, given the outcomes
        of the four network strategies, and set the page up. Because the sample
        dataset ends the chain, the page always reaches the ready state. */
    method Init(direct: Api.Attempt, corsAnywhere: Api.Attempt, allOrigins: Api.Attempt, jsonp: Api.Attempt)
      modifies this
      ensures allGames == Api.ChainResult(Api.Strategies(direct, corsAnywhere, allOrigins, jsonp))
      ensures allGames != [] && !loadingShown && loadingText == old(loadingText) && listenersWired
      ensures categoryOptions == old(categoryOptions) + GenreOptions(DistinctGenres(allGames))
      ensures view == Rendered(allGames)
      ensures platformValue == old(platformValue) && categoryValue == old(categoryValue)
      ensures old(platformValue) == All && old(categoryValue) == All ==> Consistent()
    {
      var games;
      ghost var invoked;
      games, invoked := Api.FetchGames(Api.Strategies(direct, corsAnywhere, allOrigins, jsonp));
      Api.ChainNeverEmpty(direct, corsAnywhere, allOrigins, jsonp);
      allGames := games;
      SetupApp();
    }

    /** `setupApp`: an empty catalogue only sets the failure message; otherwise
        hide the loading element, fill the category control, render every game
        and wire the two change listeners. */
    method SetupApp()
      modifies this
      ensures allGames == old(allGames)
      ensures platformValue == old(platformValue) && categoryValue == old(categoryValue)
      ensures allGames == [] ==>
                && loadingText == FailureMessage && loadingShown == old(loadingShown)
                && categoryOptions == old(categoryOptions) && view == old(view)
                && listenersWired == old(listenersWired)
      ensures allGames != [] ==>
                && loadingText == old(loadingText) && !loadingShown
                && categoryOptions == old(categoryOptions) + GenreOptions(DistinctGenres(allGames))
                && view == Rendered(allGames) && listenersWired
    {
      if |allGames| == 0 {
        loadingText := FailureMessage;
        return;
      }
      loadingShown := false;
      PopulateFilters();
      RenderGames(allGames);
      listenersWired := true;
    }

    /** `populateFilters`: append one option per distinct genre, in first-seen order. */
    method PopulateFilters()
      modifies this`categoryOptions
      ensures categoryOptions == old(categoryOptions) + GenreOptions(DistinctGenres(allGames))
    {
      var genres := DistinctGenres(allGames);
      ghost var before := categoryOptions;
      for i := 0 to |genres|
        invariant |categoryOptions| == |before| + i
        invariant categoryOptions[..|before|] == before
        invariant forall k :: 0 <= k < i ==> categoryOptions[|before| + k] == CategoryOption(genres[k], genres[k])
      {
        categoryOptions := categoryOptions + [CategoryOption(genres[i], genres[i])];
      }
      assert categoryOptions == before + GenreOptions(genres);
    }

    /** `filterGames`, the change listener: narrow a copy of the catalogue by the
        two selector values and render it. The catalogue itself is left as it is. */
    method FilterGames()
      modifies this`view
      ensures allGames == old(allGames)
      ensures view == Rendered(Filtered(allGames, platformValue, categoryValue))
    {
      var platform := platformValue;
      var category := categoryValue;
      var filteredGames := allGames;
      if platform != All {
        filteredGames := Where(filteredGames, OnPlatform(platform));
      }
      if category != All {
        filteredGames := Where(filteredGames, OfGenre(category));
      }
      RenderGames(filteredGames);
    }

    /** `renderGames`: clear the container, then show the placeholder for an
        empty list or append one card per game. */
    method RenderGames(games: seq<Game>)
      modifies this`view
      ensures view == Rendered(games)
    {
      view := [];
      if |games| == 0 {
        view := [NoMatches(NoMatchesMessage)];
        return;
      }
      for i := 0 to |games|
        invariant |view| == i
        invariant forall k :: 0 <= k < i ==> view[k] == Card(games[k])
      {
        view := view + [Card(games[i])];
      }
      assert view == Rendered(games);
    }

    /** The user picks new selector values. Before the listeners are wired the
        view does not change; afterwards it shows the newly filtered catalogue. */
    method ChangeFilters(platform: string, category: string)
      modifies this`platformValue, this`categoryValue, this`view
      ensures platformValue == platform && categoryValue == category
      ensures !listenersWired ==> view == old(view)
      ensures Consistent()
    {
      platformValue, categoryValue := platform, category;
      if listenersWired {
        FilterGames();
      }
    }
  }
}
