/**
 * The recommendation controller: the questionnaire it serves, and the handling
 * of a submitted questionnaire — token check, genre limit, weight sampling,
 * mandatory answers, the call into the Spotify service and the mapping of
 * errors to HTTP statuses.
 *
 * `Math.random` is an injected sequence of draws in `[0, 1)`, one per selected
 * genre; `NODE_ENV === "development"` is the `development` flag; the current
 * year is a parameter.
 */
module RecommendationController {
  import opened Wrappers
  import opened Text
  import opened Types
  import opened GenreTable
  import opened SpotifyService

  /** The most genres a request may select. */
  const MaxGenres: nat := 15

  const AuthUrl: string := "/auth/login"
  const AuthRequiredMessage: string := "Autenticação necessária"
  const TooManyGenresMessage: string := "Por favor, selecione no máximo 15 gêneros musicais"
  const MissingAnswersMessage: string := "Por favor, responda todas as perguntas obrigatórias"
  const InvalidTokenReplyMessage: string := "Token inválido ou expirado"
  const ScopeMessage: string := "Permissões insuficientes"
  const ScopeSolution: string := "Reautentique-se com escopos adicionais"
  const ServerErrorMessage: string := "Erro ao processar suas preferências"

  /** The text the controller looks for in an error message to answer 401. */
  const InvalidTokenMarker: string := "Token de acesso inválido"

  // ---------------------------------------------------------------------------
  // getQuestions
  // ---------------------------------------------------------------------------

  /** One question of the questionnaire. */
  datatype Question = Question(
    id: string,
    question: string,
    options: seq<string>,
    maxSelections: Option<nat>,
    answerType: Option<string>,
    optional: bool)

  /** The activities the questionnaire offers. */
  const ActivityOptions: seq<string> := ["Trabalhando", "Estudando", "Exercitando", "Relaxando", "Socializando"]

  /** The recommendation types the questionnaire offers: songs, then artists. */
  const TypeOptions: seq<string> := ["Músicas", "Artistas"]

  /** The questionnaire `getQuestions` serves. */
  function Questions(): (qs: seq<Question>)
    ensures |qs| == 4 && qs[0].maxSelections == Some(MaxGenres)
    ensures forall k | 0 <= k < |qs| :: qs[k].optional <==> k == 3
  {
    [ Question("favoriteGenres", "Quais são seus gêneros musicais preferidos? (Máximo 15)",
               Names(Table), Some(MaxGenres), None, false),
      Question("currentActivity", "O que você está fazendo agora?",
               ActivityOptions, None, None, false),
      Question("recommendationType", "Você quer que recomende músicas ou artistas?",
               TypeOptions, None, None, false),
      // the year question has no options and the others no `optional` field: `[]` and `false` stand for them
      Question("minReleaseYear", "Deseja filtrar por ano mínimo de lançamento? (opcional)",
               [], None, Some("number"), true) ]
  }

  /**
   * The questionnaire matches what a submission is checked against: the genre
   * options are exactly the table's names in order, every one of them known;
   * the genre limit is the one the handler enforces; the two type options map
   * to the two recommendation types; only the release-year question is optional.
   */
  lemma QuestionsMatchSubmission()
    ensures var qs := Questions();
      && |qs| == 4
      && qs[0].id == "favoriteGenres" && qs[1].id == "currentActivity"
      && qs[2].id == "recommendationType" && qs[3].id == "minReleaseYear"
      && qs[0].options == Names(Table) && qs[0].maxSelections == Some(MaxGenres)
      && (forall o | o in qs[0].options :: Lookup(o).Some?)
      && qs[1].options == ActivityOptions && qs[2].options == TypeOptions
      && (forall k | 0 <= k < |qs| :: qs[k].optional <==> k == 3)
  {
    forall o | o in Names(Table)
      ensures Lookup(o).Some?
    {
    }
  }

  // ---------------------------------------------------------------------------
  // The request and the reply
  // ---------------------------------------------------------------------------

  /** The JSON body of a submission; `None` stands for a missing (or null) field. */
  datatype Body = Body(
    favoriteGenres: Option<seq<string>>,
    currentActivity: Option<string>,
    recommendationType: Option<string>,
    minReleaseYear: Option<int>)

  /** A submission: the `Authorization` header, if any, and the body. */
  datatype Request = Request(authorization: Option<string>, body: Body)

  /** The JSON the controller answers with. */
  datatype ReplyBody =
    | AuthError(error: string, authUrl: string)
    | BadRequest(error: string)
    | ScopeError(error: string, solution: string)
    | ServerError(error: string, details: Option<string>)
    | Recommendations(response: Response)

  /** An HTTP status and its JSON body. */
  datatype Reply = Reply(status: int, body: ReplyBody)

  // ---------------------------------------------------------------------------
  // The request checks
  // ---------------------------------------------------------------------------

  /** `req.headers.authorization?.split(" ")[1]`, absent when missing or empty. */
  function BearerToken(authorization: Option<string>): (token: Option<string>)
    ensures authorization.None? ==> token.None?
    ensures authorization.Some? && ' ' !in authorization.value ==> token.None?
    ensures token.Some? ==> token.value != "" && ' ' !in token.value
  {
    match authorization
    case None => None
    case Some(header) =>
      var parts := Split(header, ' ');
      if ' ' !in header then
        // a header without a space is a single piece, so there is no `[1]`
        SplitWithoutSeparator(header, ' ');
        None
      else if |parts| >= 2 && parts[1] != "" then Some(parts[1]) else None
  }

  /** A header `<scheme> <token>` yields its token, whatever the scheme. */
  lemma BearerTokenOfHeader(scheme: string, token: string)
    requires ' ' !in scheme && ' ' !in token && token != ""
    ensures BearerToken(Some(scheme + " " + token)) == Some(token)
  {
    assert scheme + " " + token == scheme + [' '] + token;
    SplitAround(scheme, token, ' ');
    SplitWithoutSeparator(scheme, ' ');
    SplitWithoutSeparator(token, ' ');
  }

  /**
   * Any header with a space yields its second space-separated piece: a header
   * `<scheme> <token><rest>`, where `rest` is empty or starts a further piece,
   * yields `token`, and no token at all when that piece is empty.
   */
  lemma BearerTokenOfSpacedHeader(scheme: string, token: string, rest: string)
    requires ' ' !in scheme && ' ' !in token
    requires rest == "" || rest[0] == ' '
    ensures BearerToken(Some(scheme + " " + token + rest)) == if token == "" then None else Some(token)
  {
    var header := scheme + " " + token + rest;
    assert header == scheme + [' '] + (token + rest);
    SplitAround(scheme, token + rest, ' ');
    SplitWithoutSeparator(scheme, ' ');
    SplitWithoutSeparator(token, ' ');
    if rest == "" {
      assert token + rest == token;
    } else {
      assert token + rest == token + [' '] + rest[1..];
      SplitAround(token, rest[1..], ' ');
    }
    assert header[|scheme|] == ' ';
  }

  /** `body.favoriteGenres && body.favoriteGenres.length > 15`. */
  predicate TooManyGenres(body: Body)
    ensures !TooManyGenres(body) ==> body.favoriteGenres.None? || |body.favoriteGenres.value| <= MaxGenres
  {
    body.favoriteGenres.Some? && |body.favoriteGenres.value| > MaxGenres
  }

  /** `body.recommendationType === "Artistas" ? "artists" : "tracks"`. */
  function RecommendationTypeOf(answer: Option<string>): (t: RecommendationType)
    ensures t == Artists <==> answer == Some("Artistas")
  {
    if answer == Some("Artistas") then Artists else Tracks
  }

  /** The string the source stores for a recommendation type. */
  function TypeName(t: RecommendationType): (name: string)
    ensures name != ""
  {
    match t
    case Tracks => "tracks"
    case Artists => "artists"
  }

  /** `body.minReleaseYear ? parseInt(body.minReleaseYear) : undefined`, on an already parsed year. */
  function MinReleaseYearOf(answer: Option<int>): (year: Option<int>)
    ensures year.Some? <==> answer.Some? && answer.value != 0
    ensures year.Some? ==> year == answer
  {
    if answer.Some? && answer.value != 0 then answer else None
  }

  /** The mandatory-answer check: genres present, a non-empty activity, a type name. */
  predicate MissingAnswers(body: Body)
    ensures !MissingAnswers(body) ==>
      body.favoriteGenres.Some? && body.currentActivity.Some? && body.currentActivity.value != ""
  {
    || body.favoriteGenres.None?
    || body.currentActivity.None?
    || body.currentActivity.value == ""
    || TypeName(RecommendationTypeOf(body.recommendationType)) == ""
  }

  /**
   * A body answering the questionnaire — at most fifteen of the offered genres,
   * one of the offered activities — passes both body checks, whatever type it picks.
   */
  lemma AnsweredQuestionnairePasses(genres: seq<string>, activity: string, answer: Option<string>, year: Option<int>)
    requires |genres| <= MaxGenres
    requires activity in ActivityOptions
    ensures var body := Body(Some(genres), Some(activity), answer, year);
      !TooManyGenres(body) && !MissingAnswers(body)
  {
  }

  /** The two offered type answers select tracks and artists respectively. */
  lemma TypeOptionsMap()
    ensures |TypeOptions| == 2
    ensures RecommendationTypeOf(Some(TypeOptions[0])) == Tracks
    ensures RecommendationTypeOf(Some(TypeOptions[1])) == Artists
  {
  }

  /** The recommendation-type clause of the mandatory check never fails. */
  lemma TypeClauseNeverFails(body: Body)
    ensures MissingAnswers(body) <==>
      body.favoriteGenres.None? || body.currentActivity.None? || body.currentActivity.value == ""
  {
  }

  // ---------------------------------------------------------------------------
  // Genre weights
  // ---------------------------------------------------------------------------

  /** Draws of `Math.random()`: each in `[0, 1)`. */
  predicate ValidDraws(draws: seq<real>)
  {
    forall i | 0 <= i < |draws| :: 0.0 <= draws[i] < 1.0
  }

  /**
   * The `reduce` over the selected genres against a genre table: each genre the
   * table knows gets a weight drawn from its range with the draw at its
   * position; a genre selected twice keeps its last draw; unknown genres are
   * skipped. The controller runs it against `GenreTable.Table`.
   */
  function GenreWeights(table: seq<Entry>, genres: seq<string>, draws: seq<real>): (weights: map<string, int>)
    requires ValidTable(table)
    requires |draws| >= |genres| && ValidDraws(draws)
    ensures weights.Keys == set g | g in genres && Find(table, g).Some?
    ensures forall g | g in weights ::
      Find(table, g).Some? && Find(table, g).value.min <= weights[g] <= Find(table, g).value.max
  {
    if genres == [] then map[]
    else
      var n := |genres| - 1;
      assert genres == genres[..n] + [genres[n]];
      AddWeight(table, GenreWeights(table, genres[..n], draws), genres[n], draws[n])
  }

  /** One step of the `reduce`: a known genre gets a weight drawn with `r`. */
  function AddWeight(table: seq<Entry>, acc: map<string, int>, genre: string, r: real): (weights: map<string, int>)
    requires ValidTable(table)
    requires 0.0 <= r < 1.0
    ensures weights.Keys == if Find(table, genre).Some? then acc.Keys + {genre} else acc.Keys
    ensures forall g | g in weights && g != genre :: weights[g] == acc[g]
    ensures Find(table, genre).Some? ==>
      && genre in weights
      && (FindBounds(table, genre); weights[genre] == Sample(Find(table, genre).value, r))
  {
    match Find(table, genre)
    case Some(range) =>
      FindBounds(table, genre);
      acc[genre := Sample(range, r)]
    case None => acc
  }

  /** Every weight the controller draws lies in `[5, 50]`. */
  lemma GenreWeightsBounds(table: seq<Entry>, genres: seq<string>, draws: seq<real>)
    requires ValidTable(table)
    requires |draws| >= |genres| && ValidDraws(draws)
    ensures var weights := GenreWeights(table, genres, draws);
      forall g | g in weights :: 5 <= weights[g] <= 50
  {
    var weights := GenreWeights(table, genres, draws);
    forall g | g in weights
      ensures 5 <= weights[g] <= 50
    {
      FindBounds(table, g);
    }
  }

  /** The last selected genre, when known, carries the weight drawn at the last position. */
  lemma LastGenreWeight(table: seq<Entry>, genres: seq<string>, draws: seq<real>)
    requires ValidTable(table)
    requires |draws| >= |genres| > 0 && ValidDraws(draws)
    requires Find(table, genres[|genres| - 1]).Some?
    ensures var n := |genres| - 1; (FindBounds(table, genres[n]);
      GenreWeights(table, genres, draws)[genres[n]] == Sample(Find(table, genres[n]).value, draws[n]))
  {
    FindBounds(table, genres[|genres| - 1]);
  }

  /** Selecting one more genre leaves the weight of every other genre as it was. */
  lemma OtherGenresKept(table: seq<Entry>, genres: seq<string>, draws: seq<real>, g: string)
    requires ValidTable(table)
    requires |draws| >= |genres| > 0 && ValidDraws(draws)
    requires g != genres[|genres| - 1] && g in GenreWeights(table, genres[..|genres| - 1], draws)
    ensures GenreWeights(table, genres, draws)[g] == GenreWeights(table, genres[..|genres| - 1], draws)[g]
  {
  }

  /** A genre's weight is the one drawn at the last position it was selected. */
  lemma {:induction false} LastSelectionWins(table: seq<Entry>, genres: seq<string>, draws: seq<real>, i: nat)
    requires ValidTable(table)
    requires |draws| >= |genres| && ValidDraws(draws)
    requires i < |genres| && Find(table, genres[i]).Some?
    requires forall j | i < j < |genres| :: genres[j] != genres[i]
    ensures (FindBounds(table, genres[i]);
      GenreWeights(table, genres, draws)[genres[i]] == Sample(Find(table, genres[i]).value, draws[i]))
  {
    FindBounds(table, genres[i]);
    var n := |genres| - 1;
    if i < n {
      assert genres[..n][i] == genres[i];
      LastSelectionWins(table, genres[..n], draws, i);
      OtherGenresKept(table, genres, draws, genres[i]);
    } else {
      LastGenreWeight(table, genres, draws);
    }
  }

  /** The weights the controller draws survive the service's `|| 20` fallback unchanged. */
  lemma SampledWeightsKept(table: seq<Entry>, genres: seq<string>, draws: seq<real>, g: string)
    requires ValidTable(table)
    requires |draws| >= |genres| && ValidDraws(draws)
    ensures var weights := GenreWeights(table, genres, draws);
      WeightOf(weights, g) == if g in weights then weights[g] else DefaultWeight
  {
    GenreWeightsBounds(table, genres, draws);
  }

  /** The weight-building loop: updates the accumulator map genre by genre. */
  method BuildGenreWeights(table: seq<Entry>, genres: seq<string>, draws: seq<real>) returns (acc: map<string, int>)
    requires ValidTable(table)
    requires |draws| >= |genres| && ValidDraws(draws)
    ensures acc == GenreWeights(table, genres, draws)
  {
    acc := map[];
    for i := 0 to |genres|
      invariant acc == GenreWeights(table, genres[..i], draws)
    {
      var genre := genres[i];
      assert genres[..i + 1][..i] == genres[..i];
      match Find(table, genre) {
        case Some(range) =>
          FindBounds(table, genre);
          acc := acc[genre := Sample(range, draws[i])];
        case None =>
      }
    }
    assert genres[..|genres|] == genres;
  }

  // ---------------------------------------------------------------------------
  // Error classification
  // ---------------------------------------------------------------------------

  /**
   * The `catch` of `submitPreferences`: an invalid-token message gives 401,
   * otherwise an upstream 403 gives 403, otherwise 500 (with the message as
   * details only in development).
   */
  function ClassifyError(e: Error, development: bool): (reply: Reply)
    ensures reply.status == 401 <==> Contains(e.message, InvalidTokenMarker)
    ensures reply.status == 403 <==> !Contains(e.message, InvalidTokenMarker) && e.responseStatus == Some(403)
    ensures reply.status == 500 <==> !Contains(e.message, InvalidTokenMarker) && e.responseStatus != Some(403)
    ensures reply.status == 401 ==> reply.body == AuthError(InvalidTokenReplyMessage, AuthUrl)
    ensures reply.status == 403 ==> reply.body == ScopeError(ScopeMessage, ScopeSolution)
    ensures reply.status == 500 ==>
      reply.body == ServerError(ServerErrorMessage, if development then Some(e.message) else None)
  {
    if Contains(e.message, InvalidTokenMarker) then Reply(401, AuthError(InvalidTokenReplyMessage, AuthUrl))
    else if e.responseStatus == Some(403) then Reply(403, ScopeError(ScopeMessage, ScopeSolution))
    else Reply(500, ServerError(ServerErrorMessage, if development then Some(e.message) else None))
  }

  /** The one error the service throws is answered with 500. */
  lemma ServiceFailureIs500(development: bool)
    ensures ClassifyError(Error(FailureMessage, None), development).status == 500
  {
    assert 'T' !in FailureMessage;
    LacksFirstChar(FailureMessage, InvalidTokenMarker);
  }

  /** The message of `checkTokenValidity` would be answered with 401, were it not rethrown. */
  lemma InvalidTokenMessageIs401(development: bool)
    ensures ClassifyError(Error(InvalidTokenMessage, None), development).status == 401
  {
    PrefixContained(InvalidTokenMessage, InvalidTokenMarker);
  }

  // ---------------------------------------------------------------------------
  // submitPreferences
  // ---------------------------------------------------------------------------

  /** The preferences built from a body that passed every check. */
  function PreferencesOf(body: Body, draws: seq<real>): (prefs: Preferences)
    requires !MissingAnswers(body)
    requires |draws| >= |body.favoriteGenres.value| && ValidDraws(draws)
    ensures prefs.favoriteGenres == body.favoriteGenres.value
    ensures prefs.currentActivity == body.currentActivity.value && prefs.currentActivity != ""
    ensures prefs.recommendationType == Artists <==> body.recommendationType == Some("Artistas")
    ensures prefs.minReleaseYear.Some? <==> body.minReleaseYear.Some? && body.minReleaseYear.value != 0
    ensures prefs.minReleaseYear.Some? ==> prefs.minReleaseYear == body.minReleaseYear
    ensures (TableWellFormed(); prefs.genreWeights == GenreWeights(Table, body.favoriteGenres.value, draws))
  {
    TableWellFormed();
    Preferences(body.favoriteGenres.value, GenreWeights(Table, body.favoriteGenres.value, draws),
                body.currentActivity.value, RecommendationTypeOf(body.recommendationType),
                MinReleaseYearOf(body.minReleaseYear))
  }

  /** The reply for what the service returned. */
  function ReplyFor(result: Result<Response, Error>, development: bool): (reply: Reply)
    ensures reply.status == 200 <==> result.Success?
    ensures result.Success? ==> reply.body == Recommendations(result.value)
    ensures result.Failure? ==> reply == ClassifyError(result.error, development)
  {
    match result
    case Success(response) => Reply(200, Recommendations(response))
    case Failure(e) => ClassifyError(e, development)
  }

  /**
   * `submitPreferences`: the checks run in order — token, genre limit, mandatory
   * answers — and each failing check answers before anything is sent to Spotify;
   * a request that passes them all is answered with what the service returns.
   */
  method SubmitPreferences(req: Request, draws: seq<real>, api: SpotifyApi, currentYear: int, development: bool)
    returns (reply: Reply, calls: seq<ApiCall>)
    requires ValidDraws(draws)
    requires req.body.favoriteGenres.Some? ==> |draws| >= |req.body.favoriteGenres.value|
    ensures BearerToken(req.authorization).None? ==>
      reply == Reply(401, AuthError(AuthRequiredMessage, AuthUrl)) && calls == []
    ensures BearerToken(req.authorization).Some? && TooManyGenres(req.body) ==>
      reply == Reply(400, BadRequest(TooManyGenresMessage)) && calls == []
    ensures BearerToken(req.authorization).Some? && !TooManyGenres(req.body) && MissingAnswers(req.body) ==>
      reply == Reply(400, BadRequest(MissingAnswersMessage)) && calls == []
    ensures BearerToken(req.authorization).Some? && !TooManyGenres(req.body) && !MissingAnswers(req.body) ==>
      var x := Recommend(PreferencesOf(req.body, draws), BearerToken(req.authorization).value, api, currentYear);
      calls == x.calls && reply == ReplyFor(x.result, development)
    // consequences of the above, given what the service can return
    ensures reply.status == 401 <==> BearerToken(req.authorization).None?
    ensures reply.status != 403
    ensures calls == [] <==> reply.status == 401 || reply.status == 400
    ensures calls != [] ==> reply.status == 200 || reply.status == 500
    ensures reply.status == 200 ==>
      && reply.body.Recommendations?
      && reply.body.response.genreWeights.Keys == set g | g in req.body.favoriteGenres.value && Lookup(g).Some?
      && (forall g | g in reply.body.response.genreWeights :: 5 <= reply.body.response.genreWeights[g] <= 50)
  {
    calls := [];
    var token := BearerToken(req.authorization);
    if token.None? {
      reply := Reply(401, AuthError(AuthRequiredMessage, AuthUrl));
      return;
    }

    var body := req.body;
    if TooManyGenres(body) {
      reply := Reply(400, BadRequest(TooManyGenresMessage));
      return;
    }

    var genreWeights: Option<map<string, int>> := None;
    if body.favoriteGenres.Some? {
      TableWellFormed();
      var weights := BuildGenreWeights(Table, body.favoriteGenres.value, draws);
      genreWeights := Some(weights);
    }
    var recommendationType := RecommendationTypeOf(body.recommendationType);
    var minReleaseYear := MinReleaseYearOf(body.minReleaseYear);

    if MissingAnswers(body) {
      reply := Reply(400, BadRequest(MissingAnswersMessage));
      return;
    }

    var preferences := Preferences(body.favoriteGenres.value, genreWeights.value, body.currentActivity.value,
                                   recommendationType, minReleaseYear);
    assert preferences == PreferencesOf(body, draws);
    var result;
    result, calls := GetRecommendations(preferences, token.value, api, currentYear);
    match result {
      case Success(response) =>
        GenreWeightsBounds(Table, body.favoriteGenres.value, draws);
        reply := Reply(200, Recommendations(response));
      case Failure(e) =>
        ServiceFailureIs500(development);
        reply := ClassifyError(e, development);
    }
  }
}
