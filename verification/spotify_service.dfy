/**
 * The Spotify service: checks the user's token against `/me`, searches one genre
 * at a time in descending weight order, concatenates what the searches return,
 * and shapes the first ten items into the response.
 *
 * The Spotify Web API is not part of this model: `/me` and `/search` are oracle
 * functions of a SpotifyApi value, and every call made is recorded in a trace.
 */
module SpotifyService {
  import opened Wrappers
  import opened Text
  import opened Types
  import opened WeightOrder

  /** The weight of a genre that has none (or a weight of 0) in the weight map. */
  const DefaultWeight: int := 20

  /** The number of search results spread over all genres. */
  const PageSize: nat := 50

  /** The number of tracks or artists the response shows. */
  const MaxShown: nat := 10

  /** The one error message `getRecommendations` ever throws. */
  const FailureMessage: string := "Falha ao obter recomendações do Spotify"

  /** The message `checkTokenValidity` throws when `/me` fails. */
  const InvalidTokenMessage: string := "Token de acesso inválido ou expirado"

  /** The `type` parameter of a search. */
  datatype SearchKind = TrackSearch | ArtistSearch

  /** One `GET /search` request: bearer token, `q`, `type` and `limit`. */
  datatype SearchRequest = SearchRequest(token: string, q: string, kind: SearchKind, limit: int)

  /** One request sent to the Spotify Web API. */
  datatype ApiCall = Me(token: string) | Search(request: SearchRequest)

  /**
   * The Spotify Web API as the service sees it: whether `GET /me` succeeds for a
   * token, and the items a search returns (`None` when the request fails).
   */
  datatype SpotifyApi = SpotifyApi(
    me: string -> bool,
    searchTracks: SearchRequest -> Option<seq<RawTrack>>,
    searchArtists: SearchRequest -> Option<seq<RawArtist>>)

  /** A thrown error: its `message` and, when it carries an HTTP response, `response.status`. */
  datatype Error = Error(message: string, responseStatus: Option<int>)

  /** A call of `getRecommendations`: its outcome and the requests it sent, in order. */
  datatype Exchange = Exchange(result: Result<Response, Error>, calls: seq<ApiCall>)

  // ---------------------------------------------------------------------------
  // Search planning
  // ---------------------------------------------------------------------------

  /** `weights[genre] || 20`: a missing weight and a weight of 0 both fall back to the default. */
  function WeightOf(weights: map<string, int>, genre: string): (w: int)
    ensures w != 0
    ensures genre in weights && weights[genre] != 0 ==> w == weights[genre]
    ensures genre !in weights ==> w == DefaultWeight
    ensures genre in weights && weights[genre] == 0 ==> w == DefaultWeight
  {
    if genre in weights && weights[genre] != 0 then weights[genre] else DefaultWeight
  }

  /** `genres.map(genre => ({ genre, weight: weights[genre] || 20 }))`. */
  function Weighted(genres: seq<string>, weights: map<string, int>): (ws: seq<WeightedGenre>)
    ensures |ws| == |genres|
    ensures forall i | 0 <= i < |ws| :: ws[i].genre == genres[i]
    ensures forall i | 0 <= i < |ws| :: ws[i].weight == WeightOf(weights, genres[i])
  {
    seq(|genres|, i requires 0 <= i < |genres| => WeightedGenre(genres[i], WeightOf(weights, genres[i])))
  }

  /** The genres in the order they are searched. */
  function SearchOrder(genres: seq<string>, weights: map<string, int>): (order: seq<WeightedGenre>)
    ensures |order| == |genres|
    ensures multiset(order) == multiset(Weighted(genres, weights))
  {
    SortPermutes(Weighted(genres, weights));
    SortByWeight(Weighted(genres, weights))
  }

  /** `if (minYear)`: a year filter is added when a minimum year is given and is not 0. */
  predicate HasYearFilter(minYear: Option<int>)
    ensures !HasYearFilter(minYear) <==> minYear.None? || minYear == Some(0)
  {
    minYear.Some? && minYear.value != 0
  }

  /** The text a query carries after the closing quotation mark of the genre: ` year:Y-C` or nothing. */
  function YearClause(minYear: Option<int>, currentYear: int): (clause: string)
    ensures clause != "" <==> HasYearFilter(minYear)
    ensures HasYearFilter(minYear) ==> |clause| > 6 && clause[..6] == " year:"
  {
    if HasYearFilter(minYear) then " year:" + IntToString(minYear.value) + "-" + IntToString(currentYear) else ""
  }

  /** The search query for one genre: `genre:"G"`, then ` year:Y-C` when a year filter applies. */
  function Query(genre: string, minYear: Option<int>, currentYear: int): (q: string)
    ensures |q| >= |genre| + 8 && q[..|genre| + 8] == "genre:\"" + genre + "\""
    ensures |q| > |genre| + 8 <==> HasYearFilter(minYear)
  {
    "genre:\"" + genre + "\"" + YearClause(minYear, currentYear)
  }

  /** `Math.floor(50 / genres.length)`: the number of results asked for per genre. */
  function Quota(genreCount: nat): (quota: nat)
    requires genreCount > 0
    ensures quota <= PageSize
    ensures genreCount <= PageSize ==> quota >= 1
  {
    PageSize / genreCount
  }

  /** One search request per genre of `order`, each asking for the quota of `genreCount` genres. */
  function Requests(order: seq<WeightedGenre>, genreCount: nat, kind: SearchKind, token: string,
                    minYear: Option<int>, currentYear: int): (requests: seq<SearchRequest>)
    requires |order| == genreCount
    ensures |requests| == |order|
  {
    seq(|order|, i requires 0 <= i < |order| =>
      SearchRequest(token, Query(order[i].genre, minYear, currentYear), kind, Quota(genreCount)))
  }

  /** The search requests of one call, one per genre in search order. */
  function Plan(kind: SearchKind, token: string, genres: seq<string>, weights: map<string, int>,
                minYear: Option<int>, currentYear: int): (requests: seq<SearchRequest>)
    ensures |requests| == |genres|
  {
    Requests(SearchOrder(genres, weights), |genres|, kind, token, minYear, currentYear)
  }

  /** The items of the successful searches among `requests`, concatenated in request order. */
  function Collect<T>(requests: seq<SearchRequest>, search: SearchRequest -> Option<seq<T>>): (items: seq<T>)
    ensures requests == [] ==> items == []
  {
    if requests == [] then []
    else
      var last := requests[|requests| - 1];
      Collect(requests[..|requests| - 1], search) + (match search(last) case Some(items) => items case None => [])
  }

  // ---------------------------------------------------------------------------
  // The genre searches
  // ---------------------------------------------------------------------------

  /**
   * The body shared by `searchTracksByGenre` and `searchArtistsByGenre`: weight the
   * genres, sort them in place, then search each one in turn. Returns the items
   * found and the requests sent.
   */
  method SearchByGenre<T>(kind: SearchKind, genres: seq<string>, weights: map<string, int>, token: string,
                          minYear: Option<int>, currentYear: int, search: SearchRequest -> Option<seq<T>>)
    returns (results: seq<T>, requests: seq<SearchRequest>)
    ensures requests == Plan(kind, token, genres, weights, minYear, currentYear)
    ensures results == Collect(requests, search)
  {
    var weightedGenres := new WeightedGenre[|genres|](i requires 0 <= i < |genres| =>
      WeightedGenre(genres[i], WeightOf(weights, genres[i])));
    assert weightedGenres[..] == Weighted(genres, weights);
    SortInPlace(weightedGenres);
    results, requests := SearchEach(weightedGenres[..], |genres|, kind, token, minYear, currentYear, search);
  }

  /**
   * The loop of the genre searches: one request per genre of `order`; the items
   * of a successful search are appended, a failed search is skipped.
   */
  method SearchEach<T>(order: seq<WeightedGenre>, genreCount: nat, kind: SearchKind, token: string,
                       minYear: Option<int>, currentYear: int, search: SearchRequest -> Option<seq<T>>)
    returns (results: seq<T>, requests: seq<SearchRequest>)
    requires |order| == genreCount
    ensures requests == Requests(order, genreCount, kind, token, minYear, currentYear)
    ensures results == Collect(requests, search)
  {
    ghost var planned := Requests(order, genreCount, kind, token, minYear, currentYear);
    results, requests := [], [];
    for i := 0 to |order|
      invariant requests == planned[..i]
      invariant results == Collect(requests, search)
    {
      var genre := order[i].genre;
      var query := "genre:\"" + genre + "\"";
      if HasYearFilter(minYear) {
        query := query + YearClause(minYear, currentYear);
      } else {
        assert query == query + YearClause(minYear, currentYear);
      }
      var request := SearchRequest(token, query, kind, Quota(genreCount));
      assert planned[..i + 1] == planned[..i] + [request] by {
        assert request == planned[i];
      }
      ghost var before := requests;
      requests := requests + [request];
      assert Collect(requests, search) == results + Collect([request], search) by {
        CollectAppend(before, [request], search);
      }
      match search(request) {
        case Some(items) => results := results + items;
        case None =>
      }
    }
    assert planned[..|order|] == planned;
  }

  /** `searchTracksByGenre`: the genre searches of type `track`. */
  method SearchTracksByGenre(genres: seq<string>, weights: map<string, int>, token: string,
                             minYear: Option<int>, currentYear: int, api: SpotifyApi)
    returns (tracks: seq<RawTrack>, requests: seq<SearchRequest>)
    ensures requests == Plan(TrackSearch, token, genres, weights, minYear, currentYear)
    ensures tracks == Collect(requests, api.searchTracks)
  {
    tracks, requests := SearchByGenre(TrackSearch, genres, weights, token, minYear, currentYear, api.searchTracks);
  }

  /** `searchArtistsByGenre`: the genre searches of type `artist`. */
  method SearchArtistsByGenre(genres: seq<string>, weights: map<string, int>, token: string,
                              minYear: Option<int>, currentYear: int, api: SpotifyApi)
    returns (artists: seq<RawArtist>, requests: seq<SearchRequest>)
    ensures requests == Plan(ArtistSearch, token, genres, weights, minYear, currentYear)
    ensures artists == Collect(requests, api.searchArtists)
  {
    artists, requests := SearchByGenre(ArtistSearch, genres, weights, token, minYear, currentYear, api.searchArtists);
  }

  // ---------------------------------------------------------------------------
  // Properties of the search plan
  // ---------------------------------------------------------------------------

  /**
   * The quota spreads at most one page over the genres and drops only the
   * remainder; up to fifteen genres, each genre gets at least three results.
   */
  lemma QuotaBounds(genreCount: nat)
    requires genreCount > 0
    ensures Quota(genreCount) * genreCount <= PageSize < (Quota(genreCount) + 1) * genreCount
    ensures genreCount <= 15 ==> Quota(genreCount) >= 3
  {
    var q, r := PageSize / genreCount, PageSize % genreCount;
    assert PageSize == q * genreCount + r && 0 <= r < genreCount;
  }

  /**
   * The genres are searched heaviest first, every genre exactly as often as it
   * was selected, and genres of equal weight in the order they were selected.
   */
  lemma SearchOrderIsStableSort(genres: seq<string>, weights: map<string, int>, w: int)
    ensures ByWeightDesc(SearchOrder(genres, weights))
    ensures multiset(SearchOrder(genres, weights)) == multiset(Weighted(genres, weights))
    ensures WithWeight(SearchOrder(genres, weights), w) == WithWeight(Weighted(genres, weights), w)
  {
    SortedByWeight(Weighted(genres, weights));
    SortPermutes(Weighted(genres, weights));
    SortIsStable(Weighted(genres, weights), w);
  }

  /**
   * One request per selected genre, each for the same quota, so the requests
   * together ask for at most one page of results.
   */
  lemma PlanWithinPage(kind: SearchKind, token: string, genres: seq<string>, weights: map<string, int>,
                       minYear: Option<int>, currentYear: int)
    requires |genres| > 0
    ensures var plan := Plan(kind, token, genres, weights, minYear, currentYear);
      && |plan| == |genres|
      && (forall i | 0 <= i < |plan| :: plan[i].limit == Quota(|genres|) && plan[i].kind == kind && plan[i].token == token)
      && |plan| * Quota(|genres|) <= PageSize
  {
    QuotaBounds(|genres|);
  }

  /** The requests of a plan, in order, search the genres of the search order. */
  lemma PlanSearchesOrder(kind: SearchKind, token: string, genres: seq<string>, weights: map<string, int>,
                          minYear: Option<int>, currentYear: int, i: nat)
    requires i < |genres|
    ensures |SearchOrder(genres, weights)| == |genres|
    ensures Plan(kind, token, genres, weights, minYear, currentYear)[i].q
         == Query(SearchOrder(genres, weights)[i].genre, minYear, currentYear)
  {
  }

  /** A query is the opening `genre:`, the quoted genre and the year clause. */
  lemma QueryParts(genre: string, minYear: Option<int>, currentYear: int)
    ensures Query(genre, minYear, currentYear) == "genre:" + ['"'] + (genre + ['"'] + YearClause(minYear, currentYear))
  {
    assert "genre:\"" == "genre:" + ['"'];
  }

  /** The year clause holds no quotation mark. */
  lemma YearClauseUnquoted(minYear: Option<int>, currentYear: int)
    ensures '"' !in YearClause(minYear, currentYear)
  {
    if HasYearFilter(minYear) {
      var tail := YearClause(minYear, currentYear);
      var y, c := IntToString(minYear.value), IntToString(currentYear);
      assert tail == " year:" + y + "-" + c;
      forall k | 0 <= k < |tail| ensures tail[k] != '"' {
        if k < 6 {
        } else if k < 6 + |y| {
          assert tail[k] == y[k - 6];
        } else if k == 6 + |y| {
        } else {
          assert tail[k] == c[k - 7 - |y|];
        }
      }
    }
  }

  /**
   * A query names its genre between the first two quotation marks (for a genre
   * without one), and carries text after the closing mark exactly when a year
   * filter applies: then ` year:Y-C`.
   */
  lemma QueryStructure(genre: string, minYear: Option<int>, currentYear: int)
    requires '"' !in genre
    ensures var parts := Split(Query(genre, minYear, currentYear), '"');
      && |parts| == 3 && parts[0] == "genre:" && parts[1] == genre
      && (parts[2] != "" <==> HasYearFilter(minYear))
      && (HasYearFilter(minYear) ==>
            parts[2] == " year:" + IntToString(minYear.value) + "-" + IntToString(currentYear))
  {
    var tail := YearClause(minYear, currentYear);
    QueryParts(genre, minYear, currentYear);
    YearClauseUnquoted(minYear, currentYear);
    assert '"' !in "genre:";
    SplitAround("genre:", genre + ['"'] + tail, '"');
    SplitAround(genre, tail, '"');
    SplitWithoutSeparator("genre:", '"');
    SplitWithoutSeparator(genre, '"');
    SplitWithoutSeparator(tail, '"');
  }

  /** When every search fails, nothing is collected. */
  lemma {:induction false} CollectAllFailed<T>(requests: seq<SearchRequest>, search: SearchRequest -> Option<seq<T>>)
    requires forall i | 0 <= i < |requests| :: search(requests[i]).None?
    ensures Collect(requests, search) == []
  {
    if requests != [] {
      var init := requests[..|requests| - 1];
      assert forall i | 0 <= i < |init| :: init[i] == requests[i];
      CollectAllFailed(init, search);
    }
  }

  /** Appending requests appends what they collect. */
  lemma {:induction false} CollectAppend<T>(a: seq<SearchRequest>, b: seq<SearchRequest>, search: SearchRequest -> Option<seq<T>>)
    ensures Collect(a + b, search) == Collect(a, search) + Collect(b, search)
    decreases |b|
  {
    if b != [] {
      var init, last := b[..|b| - 1], b[|b| - 1];
      CollectAppend(a, init, search);
      assert (a + b)[..|a + b| - 1] == a + init;
      assert b[..|b| - 1] == init;
    } else {
      assert a + b == a;
    }
  }

  /** A failed search adds nothing and the searches after it still run. */
  lemma CollectSkipsFailure<T>(before: seq<SearchRequest>, failed: SearchRequest, after: seq<SearchRequest>,
                               search: SearchRequest -> Option<seq<T>>)
    requires search(failed).None?
    ensures Collect(before + [failed] + after, search) == Collect(before, search) + Collect(after, search)
  {
    CollectAppend(before + [failed], after, search);
    assert (before + [failed])[..|before|] == before;
  }

  /** Every collected item was returned by a successful search among the requests. */
  lemma {:induction false} CollectOrigin<T>(requests: seq<SearchRequest>, search: SearchRequest -> Option<seq<T>>, x: T)
    requires x in Collect(requests, search)
    ensures exists i | 0 <= i < |requests| :: search(requests[i]).Some? && x in search(requests[i]).value
  {
    var init, last := requests[..|requests| - 1], requests[|requests| - 1];
    if x in Collect(init, search) {
      CollectOrigin(init, search, x);
      var i :| 0 <= i < |init| && search(init[i]).Some? && x in search(init[i]).value;
      assert requests[i] == init[i];
    } else {
      assert search(requests[|requests| - 1]).Some? && x in search(requests[|requests| - 1]).value;
    }
  }

  /** A search that answers within its `limit` keeps the collected items within the sum of the limits. */
  lemma {:induction false} CollectBound<T>(requests: seq<SearchRequest>, search: SearchRequest -> Option<seq<T>>, limit: nat)
    requires forall i | 0 <= i < |requests| :: requests[i].limit == limit
    requires forall r :: search(r).Some? ==> |search(r).value| <= r.limit
    ensures |Collect(requests, search)| <= |requests| * limit
  {
    if requests != [] {
      var n := |requests|;
      CollectBound(requests[..n - 1], search, limit);
      assert (n - 1) * limit + limit == n * limit;
    }
  }

  /**
   * When Spotify answers each search within its `limit`, one call collects at
   * most one page of results.
   */
  lemma CollectWithinPage<T>(kind: SearchKind, token: string, genres: seq<string>, weights: map<string, int>,
                             minYear: Option<int>, currentYear: int, search: SearchRequest -> Option<seq<T>>)
    requires forall r :: search(r).Some? ==> |search(r).value| <= r.limit
    ensures |Collect(Plan(kind, token, genres, weights, minYear, currentYear), search)| <= PageSize
  {
    if |genres| > 0 {
      PlanWithinPage(kind, token, genres, weights, minYear, currentYear);
      CollectBound(Plan(kind, token, genres, weights, minYear, currentYear), search, Quota(|genres|));
    }
  }

  // ---------------------------------------------------------------------------
  // Shaping the response
  // ---------------------------------------------------------------------------

  /** `images[0]?.url || null`: the first image's URL, absent without images or with an empty URL. */
  function ImageUrl(images: seq<Image>): (url: Option<string>)
    ensures url.Some? <==> images != [] && images[0].url != ""
    ensures url.Some? ==> url.value == images[0].url
  {
    if images != [] && images[0].url != "" then Some(images[0].url) else None
  }

  /** One track of the response: the fields the source copies, artist names only, the album image URL. */
  function ShapeTrack(t: RawTrack): (track: Track)
    ensures track.id == t.id && track.name == t.name && track.album == t.albumName
    ensures track.previewUrl == t.previewUrl && track.externalUrl == t.spotifyUrl
    ensures track.releaseDate == t.albumReleaseDate
    ensures |track.artists| == |t.artists|
    ensures forall i | 0 <= i < |t.artists| :: track.artists[i] == t.artists[i].name
    ensures track.albumImage == ImageUrl(t.albumImages)
  {
    Track(t.id, t.name, seq(|t.artists|, i requires 0 <= i < |t.artists| => t.artists[i].name),
          t.albumName, t.previewUrl, t.spotifyUrl, t.albumReleaseDate, ImageUrl(t.albumImages))
  }

  /** One artist of the response: the fields the source copies and the first image URL. */
  function ShapeArtist(a: RawArtist): (artist: Artist)
    ensures artist.id == a.id && artist.name == a.name && artist.genres == a.genres
    ensures artist.externalUrl == a.spotifyUrl && artist.popularity == a.popularity
    ensures artist.image == ImageUrl(a.images)
  {
    Artist(a.id, a.name, a.genres, a.spotifyUrl, a.popularity, ImageUrl(a.images))
  }

  function Min(a: nat, b: nat): nat { if a <= b then a else b }

  /** `tracks.slice(0, 10).map(...)`: the first ten tracks, shaped. */
  function ShownTracks(items: seq<RawTrack>): (shown: seq<Track>)
    ensures |shown| <= MaxShown
    ensures |shown| == Min(|items|, MaxShown)
    ensures forall i | 0 <= i < |shown| :: shown[i] == ShapeTrack(items[i])
  {
    seq(Min(|items|, MaxShown), i requires 0 <= i < Min(|items|, MaxShown) => ShapeTrack(items[i]))
  }

  /** `artists.slice(0, 10).map(...)`: the first ten artists, shaped. */
  function ShownArtists(items: seq<RawArtist>): (shown: seq<Artist>)
    ensures |shown| <= MaxShown
    ensures |shown| == Min(|items|, MaxShown)
    ensures forall i | 0 <= i < |shown| :: shown[i] == ShapeArtist(items[i])
  {
    seq(Min(|items|, MaxShown), i requires 0 <= i < Min(|items|, MaxShown) => ShapeArtist(items[i]))
  }

  /** The message of a track list: a fixed sentence ending with the activity. */
  function TracksMessage(activity: string): (message: string)
    ensures |message| > |activity| && message[|message| - |activity|..] == activity
    ensures Contains(message, activity)
  {
    SuffixContained("Aqui estão algumas músicas recomendadas para você enquanto ", activity);
    "Aqui estão algumas músicas recomendadas para você enquanto " + activity
  }

  /** The message of an artist list: a fixed sentence ending with the activity. */
  function ArtistsMessage(activity: string): (message: string)
    ensures |message| > |activity| && message[|message| - |activity|..] == activity
    ensures Contains(message, activity)
  {
    SuffixContained("Aqui estão alguns artistas recomendados para você enquanto ", activity);
    "Aqui estão alguns artistas recomendados para você enquanto " + activity
  }

  // ---------------------------------------------------------------------------
  // getRecommendations
  // ---------------------------------------------------------------------------

  /** `checkTokenValidity`: `GET /me`; a failure is rethrown with the invalid-token message. */
  function CheckTokenValidity(api: SpotifyApi, token: string): (r: Result<(), Error>)
    ensures r.Failure? <==> !api.me(token)
    ensures r.Failure? ==> r.error == Error(InvalidTokenMessage, None)
  {
    if api.me(token) then Success(()) else Failure(Error(InvalidTokenMessage, None))
  }

  /** The search `type` a recommendation type asks for. */
  function SearchKindOf(t: RecommendationType): (kind: SearchKind)
    ensures kind == ArtistSearch <==> t == Artists
  {
    if t == Artists then ArtistSearch else TrackSearch
  }

  /** The trace of the searches sent for `requests`, in order. */
  function SearchCalls(requests: seq<SearchRequest>): (calls: seq<ApiCall>)
    ensures |calls| == |requests|
    ensures forall i | 0 <= i < |calls| :: calls[i] == Search(requests[i])
  {
    seq(|requests|, i requires 0 <= i < |requests| => Search(requests[i]))
  }

  /** What `getRecommendations` answers for the given preferences, token and API. */
  function Recommend(prefs: Preferences, token: string, api: SpotifyApi, currentYear: int): (x: Exchange)
    ensures |x.calls| >= 1 && x.calls[0] == Me(token)
    ensures x.result.Failure? <==> !api.me(token)
    ensures x.result.Failure? ==> x.result.error == Error(FailureMessage, None) && x.calls == [Me(token)]
    ensures x.result.Success? ==>
      && (x.result.value.ArtistList? <==> prefs.recommendationType == Artists)
      && x.result.value.genreWeights == prefs.genreWeights
      && Contains(x.result.value.message, prefs.currentActivity)
      && (x.result.value.TrackList? ==> |x.result.value.tracks| <= MaxShown)
      && (x.result.value.ArtistList? ==> |x.result.value.artists| <= MaxShown)
      && |x.calls| == 1 + |prefs.favoriteGenres|
    ensures x.result.Success? ==>
      var plan := Plan(SearchKindOf(prefs.recommendationType), token, prefs.favoriteGenres,
                       prefs.genreWeights, prefs.minReleaseYear, currentYear);
      && x.calls == [Me(token)] + SearchCalls(plan)
      && (x.result.value.TrackList? ==>
            && x.result.value.tracks == ShownTracks(Collect(plan, api.searchTracks))
            && x.result.value.message == TracksMessage(prefs.currentActivity))
      && (x.result.value.ArtistList? ==>
            && x.result.value.artists == ShownArtists(Collect(plan, api.searchArtists))
            && x.result.value.message == ArtistsMessage(prefs.currentActivity))
  {
    match CheckTokenValidity(api, token)
    case Failure(_) => Exchange(Failure(Error(FailureMessage, None)), [Me(token)])
    case Success(_) =>
      var genres, weights, year := prefs.favoriteGenres, prefs.genreWeights, prefs.minReleaseYear;
      if prefs.recommendationType == Artists then
        var requests := Plan(ArtistSearch, token, genres, weights, year, currentYear);
        var message := ArtistsMessage(prefs.currentActivity);
        Exchange(Success(ArtistList(ShownArtists(Collect(requests, api.searchArtists)), message, weights)),
                 [Me(token)] + SearchCalls(requests))
      else
        var requests := Plan(TrackSearch, token, genres, weights, year, currentYear);
        var message := TracksMessage(prefs.currentActivity);
        Exchange(Success(TrackList(ShownTracks(Collect(requests, api.searchTracks)), message, weights)),
                 [Me(token)] + SearchCalls(requests))
  }

  /**
   * `getRecommendations`: checks the token, runs the genre searches of the
   * requested type, and shapes the first ten results. Every error, the invalid
   * token included, surfaces as the one generic failure.
   */
  method GetRecommendations(prefs: Preferences, token: string, api: SpotifyApi, currentYear: int)
    returns (result: Result<Response, Error>, calls: seq<ApiCall>)
    ensures Exchange(result, calls) == Recommend(prefs, token, api, currentYear)
  {
    calls := [Me(token)];
    var check := CheckTokenValidity(api, token);
    if check.Failure? {
      result := Failure(Error(FailureMessage, None));
      return;
    }
    if prefs.recommendationType == Artists {
      var artists, requests := SearchArtistsByGenre(prefs.favoriteGenres, prefs.genreWeights, token,
                                                    prefs.minReleaseYear, currentYear, api);
      calls := calls + SearchCalls(requests);
      result := Success(ArtistList(ShownArtists(artists), ArtistsMessage(prefs.currentActivity), prefs.genreWeights));
    } else {
      var tracks, requests := SearchTracksByGenre(prefs.favoriteGenres, prefs.genreWeights, token,
                                                  prefs.minReleaseYear, currentYear, api);
      calls := calls + SearchCalls(requests);
      result := Success(TrackList(ShownTracks(tracks), TracksMessage(prefs.currentActivity), prefs.genreWeights));
    }
  }
}
