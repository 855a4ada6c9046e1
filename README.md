# f2pgames catalogue viewer — a Dafny model

The viewer fetches a list of free-to-play games, renders them as cards and lets the
user narrow the list by platform and genre. This project models its two pieces of
logic and proves what they promise:

- **The fetch fallback chain** (`GameAPI.fetchGames`). It awaits five strategies in
  order: direct fetch, the cors-anywhere relay, the allorigins relay, JSONP, and the
  built-in sample. It returns the first result that is present and non-empty. A
  strategy that throws, or returns an absent or empty result, hands over to the next
  one. Each strategy is represented by its outcome (`Api.Attempt`). `Api.FetchGames`
  is the loop with its early return, proved against the reference function
  `Api.ChainResult`. Because the 8-record sample (`Api.SampleGames`) ends the list,
  the chain never yields an empty catalogue (`Api.ChainNeverEmpty`).
- **The JSONP request lifecycle** (`fetchWithJsonp`). It is a state machine over three
  things: the global callback registry (`window`, a map from callback name to the
  script its callback removes), the scripts attached to `document.body` (a set), and
  the promise of each request. The step functions `Jsonp.Begin` and `Jsonp.Deliver`
  specify the methods of the class `Jsonp.JsonpPage`. The lemmas prove these facts:
  - every exit path (callback, script error, timeout) removes both the registry entry
    and the script;
  - the timeout acts only while the callback is still registered;
  - so a promise settles at most once, and nothing leaks afterwards.
- **The page controller** (`app.js`). The pure parts live in `Filters`:
  - the filter, with `includes` on the platform and exact match on the genre;
  - the distinct genres in first-seen order;
  - the shape of the rendered view (one placeholder, or one card per game).

  The class `App.Controller` carries the page state that `setupApp`,
  `populateFilters`, `filterGames` and `renderGames` update in place.

Modules: `Games` (record type, endpoint), `Api` (chain and sample), `Jsonp`,
`Filters`, `App`.

Where the code and the design intent differ, the model follows the code:
- `setupApp` renders the whole catalogue whatever the two selectors read at that
  moment. A filter chosen while the list is still loading is applied only at the next
  change event. `App.Controller.Init` therefore establishes `Consistent()` (the view
  equals the filtered catalogue) only when both selectors read `"all"`. That is the
  state the constructor gives them.
- An empty result is not an error value. The chain skips it silently, just as it
  skips a thrown error.

## Model

| member | source | states |
|---|---|---|
| `Api.FirstUsable` | js/api.js:16-22 | the index of the first strategy whose result is present and non-empty: all earlier ones are unusable, and it is usable unless it is the length of the list |
| `Api.ChainResult` | js/api.js:16-31 | the chain's result is non-empty iff some strategy yields a non-empty result, and then it is exactly one strategy's returned list |
| `Api.FetchGames` | js/api.js:6-32 | the loop returns the first non-empty result, or `[]` when every strategy fails; it awaits exactly the strategies up to and including the first success, so none after it is invoked, and no exception escapes |
| `Api.FailureAdvances` | js/api.js:19-26 | a strategy that throws or returns an absent or empty result does not stop the chain: the result is that of the remaining strategies |
| `Api.FailedPrefixSkipped` | js/api.js:16-27 | any run of failing strategies at the front is skipped; the first usable index shifts by its length |
| `Api.LaterStrategiesIgnored` | js/api.js:19-21 | once a strategy has succeeded, appending any further strategies changes neither the index nor the result |
| `Api.SampleGames` | js/api.js:113-212 | the sample holds exactly 8 records with ids 1..8 in order, all on platform "PC (Windows)", each of genre "MMORPG" or "Shooter" |
| `Api.SampleAttempt` | js/api.js:104-110 | the sample strategy always yields a usable (non-empty) result |
| `Api.Strategies` | js/api.js:8-14 | the chain has five strategies, and the last one, the sample, is always usable |
| `Api.ChainNeverEmpty` | js/api.js:8-31 | over the five strategies the chain never returns `[]`; when the four network strategies all fail it returns exactly the sample |
| `Jsonp.ScriptFor` | js/api.js:80-81 | the script's source is the endpoint followed by `?callback=` and the callback name, which can be read back from it |
| `Jsonp.ScriptForInjective` | js/api.js:80-81 | different callback names give different scripts |
| `Jsonp.Message` | js/api.js:85-94 | the rejection messages are "JSONP request failed" for a script error and "JSONP request timed out" for the timer |
| `Jsonp.Settle` | js/api.js:77-94 | resolving or rejecting a promise that has already settled leaves it as it was |
| `Jsonp.Deliver` | js/api.js:74-96 | no event creates or discards a promise |
| `Jsonp.ExitSettlement` | js/api.js:74-96 | each exit path settles the promise: callback → resolved with its data, script error → rejected "failed", timer → rejected "timed out" |
| `Jsonp.Run` | js/api.js:70-101 | any sequence of events keeps the set of started requests |
| `Jsonp.AsAttempt` | js/api.js:70-101 | a settled JSONP request is a chain outcome: resolution returns its data, rejection throws its error message |
| `Jsonp.BeginRegisters` | js/api.js:73-87 | starting a fresh request adds one registry entry and one attached script and leaves its promise pending, keeping the invariant |
| `Jsonp.ExitCleansUp` | js/api.js:74-96 | on each exit of a pending request, both its registry entry and its script are removed and its promise is settled by that path; nothing else changes |
| `Jsonp.SettledIsFinal` | js/api.js:90-96 | after a request has settled, no event addressed to it changes the page; a late timer neither removes anything nor rejects again |
| `Jsonp.DeliverPreservesInv` | js/api.js:74-96 | every event keeps the invariant: a request is registered and attached exactly while it is pending |
| `Jsonp.DeliverKeepsSettled` | js/api.js:90-96 | an event for any request leaves a settled request's outcome unchanged |
| `Jsonp.SettlesOnce` | js/api.js:70-101 | whatever events follow, a settled request keeps its settlement and leaves no callback or script behind |
| `Jsonp.JsonpPage.constructor` | js/api.js:70-71 | a page with no request started satisfies the invariant |
| `Jsonp.JsonpPage.FetchWithJsonp` | js/api.js:73-87 | registers the callback under the name, appends its script, and creates a pending promise |
| `Jsonp.JsonpPage.OnCallback` | js/api.js:74-78 | the callback's effect is `Deliver` on a callback event, and the invariant is kept |
| `Jsonp.JsonpPage.OnScriptError` | js/api.js:82-86 | the `onerror` handler's effect is `Deliver` on a script error, and the invariant is kept |
| `Jsonp.JsonpPage.OnTimeout` | js/api.js:90-96 | the timer's effect is `Deliver` on a timeout, guarded by the registry entry, and the invariant is kept |
| `Filters.IncludesIff` | js/app.js:64 | `includes` holds exactly when the pattern occurs at some position of the platform text |
| `Filters.MissingFirstCharNotIncluded` | js/app.js:64 | a pattern whose first character does not occur in the text is not included |
| `Filters.Where` | js/app.js:64-68 | `filter` returns an order-preserving subsequence holding exactly the elements that pass the test |
| `Filters.WhereKeepsEveryOccurrence` | js/app.js:64-68 | `filter` keeps every occurrence: each passing element occurs in the result as often as in the input, and no other element occurs |
| `Filters.Matching` | js/app.js:63-69 | reference filter: an order-preserving subsequence holding exactly the games that match both selectors |
| `Filters.MatchingKeepsEveryOccurrence` | js/app.js:63-69 | each matching game occurs in the reference filter as often as in the catalogue, and no other game occurs |
| `Filters.MatchingAllAll` | js/app.js:61-69 | with both selectors at "all" the filter keeps the whole catalogue in order |
| `Filters.PlatformPass` | js/app.js:63-65 | the platform pass keeps exactly the games matching the platform selector alone |
| `Filters.GenrePass` | js/app.js:67-69 | the genre pass after the platform pass keeps exactly the games matching both selectors |
| `Filters.Filtered` | js/app.js:57-72 | the filtered list equals the reference filter: a game is in it iff (platform is "all" or its platform includes it) and (category is "all" or its genre equals it); it keeps order; with "all"/"all" it is the whole catalogue |
| `Filters.FilteredKeepsEveryOccurrence` | js/app.js:61-69 | the filtered list drops no occurrence of a matching game: each occurs as often as in the catalogue |
| `Filters.FilterExample` | js/app.js:63-69 | [Shooter, MMORPG] on PC: category "Shooter" keeps only the first record; platform "Mac" keeps none |
| `Filters.Genres` | js/app.js:46 | the genre list has one genre per game, in order |
| `Filters.Distinct` | js/app.js:46 | the de-duplicated list has no duplicates and holds exactly the elements of its input |
| `Filters.DistinctFirstSeenOrder` | js/app.js:46 | the de-duplicated elements appear in the order of their first occurrence |
| `Filters.DistinctExample` | js/app.js:46 | [A, B, A, C] gives [A, B, C] |
| `Filters.DistinctGenres` | js/app.js:46 | the category list has no duplicates and holds exactly the genres occurring in the catalogue |
| `Filters.Cards` | js/app.js:82-103 | one card per game, in input order |
| `Filters.Rendered` | js/app.js:74-104 | an empty list shows only the "no matches" placeholder; otherwise the view has one card per game, in order |
| `Filters.RenderedRoundTrip` | js/app.js:74-104 | the cards give back exactly the rendered games, in order |
| `App.GenreOptions` | js/app.js:49-54 | one option per genre, in order, with the genre as both value and text |
| `App.Controller.constructor` | js/app.js:1-8 | the page starts with an empty catalogue, the loading element shown and both selectors at "all" |
| `App.Controller.Init` | js/app.js:13-17 | the catalogue is the chain's result, never empty, so the page always reaches the ready state: filters populated, all games rendered, listeners wired |
| `App.Controller.SetupApp` | js/app.js:29-42 | an empty catalogue only sets the failure message, with no filters, rendering or listeners; otherwise it hides the loader, appends the genre options, renders the catalogue and wires the listeners |
| `App.Controller.PopulateFilters` | js/app.js:44-55 | the options appended to the category control are exactly the distinct genres, in first-seen order, after the existing ones |
| `App.Controller.FilterGames` | js/app.js:57-72 | the view becomes the rendering of the filtered catalogue, and the catalogue is not modified |
| `App.Controller.RenderGames` | js/app.js:74-104 | the container is replaced by the rendering of the given list |
| `App.Controller.ChangeFilters` | js/app.js:40-41 | a selector change re-renders the filtered catalogue once the listeners are wired, and changes nothing in the view before that |

## Left out

- The network requests themselves (`fetch`, `response.ok`, `response.json`), the relay URLs and `encodeURIComponent` (js/api.js:35-67). These are foreign I/O. Each strategy is represented only by its outcome (`Api.Attempt`).
- The shape of the JSON a strategy returns. A present result is a list of games, so a non-array value whose `length` is positive is not modelled.
- Timers and promise scheduling: the 500 ms delay of the sample strategy (js/api.js:106) and the real 10-second timer. The timeout is the input event `TimerExpired`.
- The random callback name (js/api.js:73). The name is a parameter, and `Jsonp.Fresh` requires that it is unused. A collision between two random names is not modelled.
- The `catch` in `fetchWithJsonp` for errors thrown while setting up the request (js/api.js:97-98), such as a missing `document.body`. The page is assumed to exist.
- `Api.FetchGames`: the attempts are awaited in order. The model takes the outcome of each attempt as given, so a strategy whose outcome depends on an earlier one is not modelled.
- DOM details (js/app.js:83-102): markup strings, CSS classes, `createElement`, `querySelector`, and the card's click handler that opens `game_url`. A card is the abstract item `Card(game)`.
- `console.log` and `console.error` diagnostics, including the sample-fallback message.
- The `catch` branch in `init` that calls `fetchGamesWithJsonp` (js/app.js:18-25). That method is not defined anywhere. Within the model the branch is unreachable: `fetchGames` never throws. `setupApp` throws only on results that are not lists of game records, or when a page element is missing; both cases are outside the model.
- The `DOMContentLoaded` bootstrap and `addEventListener`. The listeners are the flag `listenersWired`, and a change event is `App.Controller.ChangeFilters`.
- The platform control's options and the category control's initial options come from page markup, which is not part of this model. They are parameters of the constructor. Both controls start on their `"all"` option, which is also markup.
