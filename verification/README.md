# Spotify genre recommendations — a Dafny model

This project models the core of a small Express service that recommends
Spotify tracks or artists from a short questionnaire. The core has two parts.

The **recommendation controller** serves the questionnaire (`getQuestions`).
It handles a submitted questionnaire (`submitPreferences`):

- it takes the bearer token from the `Authorization` header;
- it rejects more than fifteen genres;
- it draws a weight for every known genre from that genre's range in the static
  `GENRE_WEIGHTS` table;
- it rejects missing answers;
- it calls the service;
- it maps thrown errors to 401, 403 or 500.

The **Spotify service** (`getRecommendations`) first checks the token with
`GET /me`. It then sorts the selected genres by descending weight, stably, and
runs one `GET /search` per genre in that order. Each search asks for
`floor(50 / number of genres)` items. Searches that fail are skipped. The first
ten items are shaped into the response. Every error is rethrown as one generic
failure.

Modules:

- `Wrappers`: `Option` and `Result`.
- `Text`:
  - JavaScript's `split(" ")` and `includes`;
  - the decimal rendering of a number inside a template literal;
  - the round-trip lemmas for both.
- `Types`: the preferences, the raw search items and the shaped response.
- `GenreTable`:
  - the genre table, kept in declaration order, which is the order
    `Object.keys` reports;
  - lookup of a genre;
  - the draw `Math.floor(r * (max - min + 1)) + min`.
- `WeightOrder`:
  - the descending, stable sort of weighted genres, as the functional
    specification `SortByWeight`;
  - an in-place insertion sort on an array, proved equal to that specification.
- `SpotifyService`: the search plan, the search loop, response shaping and
  `getRecommendations`.
- `RecommendationController`: the questionnaire, the request checks, the weight
  sampling loop, error classification and `submitPreferences`.

The Spotify Web API is a parameter (`SpotifyApi`):

- whether `/me` accepts a token;
- what each search request returns, where `None` means the request failed.

Every call that talks to it also returns the trace of requests it sent. That
makes "nothing is sent to Spotify" a statement the contracts can make.

`Math.random()` is a sequence of draws in `[0, 1)`, one per selected genre, in
order. The current year is a parameter. So is `NODE_ENV === "development"`.

A composition result the model proves: `getRecommendations` rethrows every
error, the invalid-token error included, as "Falha ao obter recomendações do
Spotify" with no HTTP response attached. So the controller's 401 and 403
branches in its `catch` are never taken for errors coming from the service.
Every service failure is answered with 500 (`SubmitPreferences`,
`ServiceFailureIs500`).

## Model

| member | source | states |
|---|---|---|
| Text.Split | src/controllers/recommendationController.ts:171 | `split(" ")`: at least one part, and no part contains the separator |
| Text.JoinSplit | src/controllers/recommendationController.ts:171 | joining the parts of a split with the separator gives back the original string |
| Text.SplitAround | src/controllers/recommendationController.ts:171 | splitting `a + sep + b` is splitting `a`, then splitting `b` |
| Text.SplitWithoutSeparator | src/controllers/recommendationController.ts:171 | a string without the separator splits into itself alone |
| Text.LacksFirstChar | src/controllers/recommendationController.ts:222 | `includes` fails when the first character of the searched text does not occur |
| Text.PrefixContained | src/controllers/recommendationController.ts:222 | `includes` holds for a prefix |
| Text.SuffixContained | src/services/spotifyService.ts:34 | a string ending with the activity includes it |
| Text.NatToString | src/services/spotifyService.ts:84 | decimal rendering: non-empty, digits only, no leading zero |
| Text.IntToString | src/services/spotifyService.ts:84 | signed rendering: non-empty, a leading `-` exactly for negatives, digits elsewhere, and no leading zero after the sign |
| Text.NatToStringRoundTrip | src/services/spotifyService.ts:84 | the digits of a rendered natural read back as that natural |
| Text.Contains | src/controllers/recommendationController.ts:222 | `includes`: the empty string is included in every string, and an included string is no longer than the text |
| Text.IntToStringRoundTrip | src/services/spotifyService.ts:84 | a rendered integer reads back as that integer |
| GenreTable.TableWellFormed | src/controllers/recommendationController.ts:5-131 | every row's range is `[min, min + 20]` with `5 <= min <= 30` |
| GenreTable.Names | src/controllers/recommendationController.ts:139 | `Object.keys`: one name per row, in row order |
| GenreTable.Find | src/controllers/recommendationController.ts:191-192 | a found range belongs to a row of that name; the lookup fails exactly for names not in the table |
| GenreTable.FindBounds | src/controllers/recommendationController.ts:191-192 | every range a well-formed table yields has width 20 and a minimum in `[5, 30]` |
| GenreTable.LookupBounds | src/controllers/recommendationController.ts:5-131 | every range `GENRE_WEIGHTS[genre]` yields has width 20 and a minimum in `[5, 30]` |
| GenreTable.Lookup | src/controllers/recommendationController.ts:191-192 | `GENRE_WEIGHTS[genre]` (the table `GenreTable.Table`, rows of lines 5-131) is truthy exactly for the offered genre names, and yields the range of that genre's row |
| GenreTable.Sample | src/controllers/recommendationController.ts:193 | a draw in `[0, 1)` yields a weight in `[min, max]` |
| GenreTable.SampleBounds | src/controllers/recommendationController.ts:191-193 | every drawn weight lies in `[5, 50]` |
| WeightOrder.Insert | src/services/spotifyService.ts:77 | one insertion step of the stable sort adds exactly one element |
| WeightOrder.SortByWeight | src/services/spotifyService.ts:77 | the sort keeps the length |
| WeightOrder.InsertPermutes | src/services/spotifyService.ts:77 | an insertion adds exactly the inserted element |
| WeightOrder.SortPermutes | src/services/spotifyService.ts:77 | the sorted genres are a permutation of the input |
| WeightOrder.InsertKeepsOrder | src/services/spotifyService.ts:77 | inserting into a list sorted by descending weight keeps it sorted |
| WeightOrder.SortedByWeight | src/services/spotifyService.ts:77 | `sort((a, b) => b.weight - a.weight)` orders by descending weight |
| WeightOrder.WithWeightAppend | src/services/spotifyService.ts:77 | the genres of one weight in `s + [x]` are those of `s`, then `x` if it has that weight |
| WeightOrder.InsertWithWeight | src/services/spotifyService.ts:77 | an insertion places the new genre after every genre of equal weight |
| WeightOrder.SortIsStable | src/services/spotifyService.ts:77 | the sort is stable: genres of equal weight keep their input order |
| WeightOrder.SortInPlace | src/services/spotifyService.ts:77 | the in-place sort leaves the array equal to `SortByWeight` of its old contents |
| WeightOrder.InsertInPlace | src/services/spotifyService.ts:77 | one in-place pass inserts element `i` into the sorted prefix and leaves the rest alone |
| WeightOrder.OpenGap | src/services/spotifyService.ts:77 | the shifting loop stops at the insertion point: elements before it stay, the elements lighter than the new one move up one place, the rest of the array is untouched |
| WeightOrder.Gap | src/services/spotifyService.ts:77 | the insertion point lies inside the sorted prefix |
| WeightOrder.InsertAtGap | src/services/spotifyService.ts:77 | inserting is splitting at the insertion point and placing the element there |
| WeightOrder.GapUnique | src/services/spotifyService.ts:77 | a position with a heavier-or-equal element (or the start) on its left and only lighter elements on its right is the insertion point |
| SpotifyService.WeightOf | src/services/spotifyService.ts:74 | `weights[genre] \|\| 20`: never 0; a stored non-zero weight is used; a genre without one, or with a stored 0, weighs 20 |
| SpotifyService.SearchOrder | src/services/spotifyService.ts:72-77 | the order the genres are searched in: one entry per genre, a permutation of the weighted genres |
| SpotifyService.HasYearFilter | src/services/spotifyService.ts:83 | `if (minYear)`: no year filter exactly when the year is absent or 0 |
| SpotifyService.YearClause | src/services/spotifyService.ts:83-84 | the text after the quoted genre is non-empty exactly when `minYear` is truthy (given and not 0), and then starts with ` year:` |
| SpotifyService.Query | src/services/spotifyService.ts:82-85 | a query starts with `genre:"G"` and carries more text exactly when a year filter applies |
| SpotifyService.Quota | src/services/spotifyService.ts:93 | `Math.floor(50 / n)`: at most a page, and at least 1 for up to 50 genres |
| SpotifyService.Collect | src/services/spotifyService.ts:79-103 | `results.push(...items)` over the searches in order; no requests collect nothing |
| SpotifyService.CollectAllFailed | src/services/spotifyService.ts:98-100 | when every search fails the result list stays empty |
| SpotifyService.ShapeTrack | src/services/spotifyService.ts:46-55 | a shown track copies id, name, album name, preview, Spotify URL and release date, keeps the artist names in order, and takes the album image URL |
| SpotifyService.ShapeArtist | src/services/spotifyService.ts:26-33 | a shown artist copies id, name, genres, Spotify URL and popularity and takes the first image URL |
| SpotifyService.TracksMessage | src/services/spotifyService.ts:56 | the track-list message ends with, and so includes, the activity |
| SpotifyService.ArtistsMessage | src/services/spotifyService.ts:34 | the artist-list message ends with, and so includes, the activity |
| SpotifyService.SearchKindOf | src/services/spotifyService.ts:17-43 | artist searches exactly for the `artists` type |
| SpotifyService.Weighted | src/services/spotifyService.ts:72-75 | one weighted entry per genre, in input order, each weighing `weights[genre] \|\| 20` (`WeightOf`) |
| SpotifyService.Requests | src/services/spotifyService.ts:81-95 | one search request per genre of the search order |
| SpotifyService.Plan | src/services/spotifyService.ts:72-95 | one search request per selected genre |
| SpotifyService.SearchByGenre | src/services/spotifyService.ts:66-104 | the searches sent are the plan, and the items returned are those of the successful searches, in plan order |
| SpotifyService.SearchEach | src/services/spotifyService.ts:81-101 | the search loop sends the requests of the order given and collects the items of those that succeed |
| SpotifyService.SearchTracksByGenre | src/services/spotifyService.ts:66-104 | `searchTracksByGenre`: track searches of the plan, successful items collected |
| SpotifyService.SearchArtistsByGenre | src/services/spotifyService.ts:106-144 | `searchArtistsByGenre`: artist searches of the plan, successful items collected |
| SpotifyService.QuotaBounds | src/services/spotifyService.ts:93 | `floor(50 / n)` is the largest quota with `quota * n <= 50`, and at least 3 for up to 15 genres |
| SpotifyService.SearchOrderIsStableSort | src/services/spotifyService.ts:72-77 | the search order is sorted by descending weight, is a permutation of the weighted genres, and keeps equal weights in input order |
| SpotifyService.PlanWithinPage | src/services/spotifyService.ts:88-95 | every planned request carries the token, the kind and the same quota, and the quotas sum to at most 50 |
| SpotifyService.PlanSearchesOrder | src/services/spotifyService.ts:81-85 | request `i` queries the `i`-th genre of the search order |
| SpotifyService.QueryParts | src/services/spotifyService.ts:82-85 | the query is `genre:"` + genre + `"` + the year clause |
| SpotifyService.YearClauseUnquoted | src/services/spotifyService.ts:84 | the year clause contains no double quote |
| SpotifyService.QueryStructure | src/services/spotifyService.ts:82-85 | for a genre without quotes the query splits at quotes into `genre:`, the genre and a tail, and the tail is ` year:Y-C` exactly when a non-zero minimum year is given, empty otherwise |
| SpotifyService.CollectAppend | src/services/spotifyService.ts:97 | the items of two request runs are those of the first followed by those of the second |
| SpotifyService.CollectSkipsFailure | src/services/spotifyService.ts:98-100 | a failed search contributes nothing and does not stop the searches after it |
| SpotifyService.CollectOrigin | src/services/spotifyService.ts:97 | every collected item came from some successful search |
| SpotifyService.CollectBound | src/services/spotifyService.ts:93-97 | searches that honour a common limit collect at most `requests * limit` items |
| SpotifyService.CollectWithinPage | src/services/spotifyService.ts:93-97 | when Spotify honours `limit`, one call collects at most 50 items |
| SpotifyService.ImageUrl | src/services/spotifyService.ts:32 | `images[0]?.url \|\| null`: a URL is present exactly when there is a first image with a non-empty URL, and it is that URL |
| SpotifyService.ShownTracks | src/services/spotifyService.ts:46-55 | at most ten tracks: the first `min(n, 10)` found, each shaped |
| SpotifyService.ShownArtists | src/services/spotifyService.ts:26-33 | at most ten artists: the first `min(n, 10)` found, each shaped |
| SpotifyService.CheckTokenValidity | src/services/spotifyService.ts:146-155 | fails exactly when `/me` rejects the token, with the invalid-token message |
| SpotifyService.SearchCalls | src/services/spotifyService.ts:88 | one search call per planned request, in order |
| SpotifyService.Recommend | src/services/spotifyService.ts:10-64 | `/me` is called first; the call fails exactly when the token is rejected, with the generic message and no search sent; on success the calls after `/me` are exactly the planned searches in order, the list kind follows the requested type, the list is the first ten (shaped) items the planned searches collected, the message is the type's sentence ending with the activity, and the weights are echoed |
| SpotifyService.GetRecommendations | src/services/spotifyService.ts:10-64 | the outcome and the requests sent are those `Recommend` describes |
| RecommendationController.Questions | src/controllers/recommendationController.ts:134-167 | four questions, the genre question limited to 15 selections, only the last optional |
| RecommendationController.QuestionsMatchSubmission | src/controllers/recommendationController.ts:134-167 | the genre options are the table's names in order, all known; the limit is the one enforced; only the year question is optional |
| RecommendationController.TypeOptionsMap | src/controllers/recommendationController.ts:156 | "Músicas" selects tracks and "Artistas" selects artists |
| RecommendationController.AnsweredQuestionnairePasses | src/controllers/recommendationController.ts:181-215 | a body with at most 15 genres and an offered activity passes both body checks |
| RecommendationController.BearerToken | src/controllers/recommendationController.ts:171-172 | no header, or a header without a space, gives no token; an extracted token is non-empty and has no space |
| RecommendationController.BearerTokenOfHeader | src/controllers/recommendationController.ts:171 | `"<scheme> <token>"` yields the token |
| RecommendationController.BearerTokenOfSpacedHeader | src/controllers/recommendationController.ts:171-172 | any header with a space yields its second space-separated piece, and no token (so a 401) when that piece is empty, as in `"Bearer "` |
| RecommendationController.TooManyGenres | src/controllers/recommendationController.ts:181 | a body that passes the limit check has no genre list or at most 15 genres |
| RecommendationController.MissingAnswers | src/controllers/recommendationController.ts:207-211 | a body that passes the mandatory check has a genre list and a non-empty activity |
| RecommendationController.RecommendationTypeOf | src/controllers/recommendationController.ts:200-201 | artists exactly for the answer "Artistas", tracks for anything else |
| RecommendationController.TypeName | src/controllers/recommendationController.ts:200-201 | the stored type name is never empty |
| RecommendationController.MinReleaseYearOf | src/controllers/recommendationController.ts:202-204 | a year is kept exactly when it is given and not 0 |
| RecommendationController.TypeClauseNeverFails | src/controllers/recommendationController.ts:207-211 | only a missing genre list or a missing or empty activity fails the mandatory check |
| RecommendationController.GenreWeights | src/controllers/recommendationController.ts:189-198 | the weighted genres are exactly the selected genres the table knows, each weight within its genre's range |
| RecommendationController.AddWeight | src/controllers/recommendationController.ts:190-195 | one reduce step adds the genre, with a weight drawn from its range, only if it is known, and leaves the other genres alone |
| RecommendationController.GenreWeightsBounds | src/controllers/recommendationController.ts:189-198 | every drawn weight lies in `[5, 50]` |
| RecommendationController.LastGenreWeight | src/controllers/recommendationController.ts:193 | the last selected genre carries the weight of the last draw |
| RecommendationController.OtherGenresKept | src/controllers/recommendationController.ts:193 | a further selection changes no other genre's weight |
| RecommendationController.LastSelectionWins | src/controllers/recommendationController.ts:189-198 | a genre selected more than once keeps the weight drawn at its last selection |
| RecommendationController.SampledWeightsKept | src/services/spotifyService.ts:74 | the service's `\|\| 20` fallback keeps every controller-drawn weight and only fills in unknown genres |
| RecommendationController.BuildGenreWeights | src/controllers/recommendationController.ts:189-198 | the weight loop builds exactly `GenreWeights` |
| RecommendationController.ClassifyError | src/controllers/recommendationController.ts:219-241 | 401 exactly when the message includes "Token de acesso inválido", with the re-login body; otherwise 403 exactly for an upstream 403, with the scope error and its solution; otherwise 500, with details only in development |
| RecommendationController.ServiceFailureIs500 | src/controllers/recommendationController.ts:219-241 | the service's generic failure is answered with 500 |
| RecommendationController.InvalidTokenMessageIs401 | src/services/spotifyService.ts:153 | the message of `checkTokenValidity` would be answered with 401 if it reached the controller |
| RecommendationController.PreferencesOf | src/controllers/recommendationController.ts:187-205 | the preferences keep the genres and the activity, select artists exactly for "Artistas", keep a release year exactly when it is given and not 0, with its value, and carry the weights `GenreWeights` draws from the table |
| RecommendationController.ReplyFor | src/controllers/recommendationController.ts:217-218 | 200 with the service's response exactly when the service succeeds, otherwise the classified error |
| RecommendationController.SubmitPreferences | src/controllers/recommendationController.ts:169-242 | the checks run in source order, and each failing check answers without contacting Spotify; a request that passes is answered as the service returns; 401 exactly without a token; never 403; any contact with Spotify ends in 200 or 500; the weights returned on 200 cover exactly the known selected genres, within `[5, 50]` |

## Left out

- I/O and the frameworks are not modelled: the Express request and response objects, axios, the HTTP transport, `console.error` and `process.env`. Their observable effects are modelled: the status, the JSON body, the requests sent and the development flag.
- Asynchrony is not modelled. The searches run one after another, each awaited in turn, so the model runs them in sequence.
- `Math.random()` is a sequence of draws indexed by the position of the genre in the selection. The source consumes one draw per known genre. Only the weights that result matter, and each comes from some value in `[0, 1)`.
- `new Date().getFullYear()` is a parameter.
- `parseInt(body.minReleaseYear)` is not modelled. The body carries an already parsed year, and `NaN` is not modelled.
- Dynamic typing is not modelled: a `favoriteGenres` that is not an array, fields that are not strings, and search items with missing fields. Spotify answers are modelled with the fields the response uses.
- A genre name that names an inherited object property (`constructor`, `toString`, …) is not modelled. In the source, `GENRE_WEIGHTS[genre]` is truthy for such names and gives a `NaN` weight. The model treats every name outside the table as unknown.
- Weights of 0 fall back to 20 in `WeightOf`, which follows `|| 20`. Controller-drawn weights are never 0.
- `Math.floor(50 / genres.length)` with no genres is never evaluated: the search loop does not run for an empty list. So `Quota` requires at least one genre.
- `WeightOrder.SortInPlace` is an insertion sort. It stands for the engine's `Array.prototype.sort`, which the language requires to be stable. The model fixes the result (`SortByWeight`), not the engine's algorithm.
- The type declarations in `src/models/types.ts` name the weight map `genreScores` and carry an `activityScore`. The controller builds `genreWeights` and no score. The model follows the controller. The declarations have no run-time effect.
- The genre table is passed to the weight functions as a parameter. `SubmitPreferences` passes `GenreTable.Table`, and `GenreTable.TableWellFormed` shows it meets their requirement.
- SpotifyApi: each search oracle is a function of the request. A genre selected twice sends two identical requests, and the model gives both the same answer; the source could see one fail and the other succeed. No property of the model depends on the two answers differing.
- Text.IntToString: JavaScript renders numbers of `1e21` and above in exponent form inside `${…}`. The model always renders plain decimal digits.
- The authentication routes and service (`src/routes/authRoutes.ts`, `src/services/authService.ts`) and the route table (`src/routes/recommendationRoutes.ts`) are not part of this model.
