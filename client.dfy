/** The API client: the three GraphQL request bodies, the classification of
    one HTTP exchange into a typed result, and the bounded retry loop that
    every request goes through. The transport itself is a parameter: for
    each request body and attempt number it yields what that attempt
    observed. */
module Client {
  import opened Wrappers
  import opened Json
  import opened Models

  const BaseApi: string := "https://api.allanime.day/api"
  const Referer: string := "https://allmanga.to"
  const UserAgent: string :=
    "Mozilla/5.0 (Windows NT 10.0; Win64; x64; rv:121.0) Gecko/20100101 Firefox/121.0"
  const TimeoutSeconds: nat := 30

  const MaxRetries: nat := 2
  const RetryDelayMillis: nat := 500
  const UnknownRequestMessage: string := "Unknown error during API request"
  const ErrorStatusPrefix: string := "API returned error status: "

  /** The GraphQL documents, with their whitespace collapsed; the catalog
      reads them, the model passes them through unchanged. */
  const SearchDocument: string :=
    "query( $search: SearchInput, $limit: Int, $page: Int, "
    + "$translationType: VaildTranslationTypeEnumType, $countryOrigin: VaildCountryOriginEnumType ) "
    + "{ shows( search: $search, limit: $limit, page: $page, translationType: $translationType, "
    + "countryOrigin: $countryOrigin ) { edges { _id name availableEpisodes __typename } } }"
  const EpisodeListDocument: string :=
    "query ($showId: String!) { show(_id: $showId) { _id availableEpisodesDetail } }"
  const EpisodeSourcesDocument: string :=
    "query ( $showId: String!, $translationType: VaildTranslationTypeEnumType!, "
    + "$episodeString: String! ) { episode( showId: $showId, translationType: $translationType, "
    + "episodeString: $episodeString ) { episodeString sourceUrls } }"

  // --------------------------------------------------------- request bodies

  /** The body of `search_anime`: adult and unknown content off, page 1 of
      at most 40, the catalog-side translation filter fixed to "sub", every
      country, and the query text passed through unchanged. */
  function SearchBody(query: string): (body: Json)
    ensures body.JObj? && body.fields.Keys == {"query", "variables"}
    ensures body.At("query") == JStr(SearchDocument)
    ensures body.At("variables").JObj?
    ensures body.At("variables").fields.Keys ==
              {"search", "limit", "page", "translationType", "countryOrigin"}
    ensures body.At("variables").At("search").JObj?
    ensures body.At("variables").At("search").fields.Keys == {"allowAdult", "allowUnknown", "query"}
    ensures body.At("variables").At("search").At("allowAdult") == JBool(false)
    ensures body.At("variables").At("search").At("allowUnknown") == JBool(false)
    ensures body.At("variables").At("search").At("query").AsStr() == Some(query)
    ensures body.At("variables").At("limit").AsU64() == Some(40)
    ensures body.At("variables").At("page").AsU64() == Some(1)
    ensures body.At("variables").At("translationType").AsStr() == Some("sub")
    ensures body.At("variables").At("countryOrigin").AsStr() == Some("ALL")
  {
    JObj(map[
      "query" := JStr(SearchDocument),
      "variables" := JObj(map[
        "search" := JObj(map[
          "allowAdult" := JBool(false),
          "allowUnknown" := JBool(false),
          "query" := JStr(query)]),
        "limit" := Int(40),
        "page" := Int(1),
        "translationType" := JStr("sub"),
        "countryOrigin" := JStr("ALL")])])
  }

  /** The body of `get_episode_list`: the show id is its only variable. */
  function EpisodeListBody(animeId: string): (body: Json)
    ensures body.JObj? && body.fields.Keys == {"query", "variables"}
    ensures body.At("query") == JStr(EpisodeListDocument)
    ensures body.At("variables").JObj? && body.At("variables").fields.Keys == {"showId"}
    ensures body.At("variables").At("showId").AsStr() == Some(animeId)
  {
    JObj(map[
      "query" := JStr(EpisodeListDocument),
      "variables" := JObj(map["showId" := JStr(animeId)])])
  }

  /** The body of `fetch_episode_sources`: show id and episode string passed
      through, the translation as its wire token. */
  function EpisodeSourcesBody(animeId: string, episodeNumber: string, translation: TranslationType)
    : (body: Json)
    ensures body.JObj? && body.fields.Keys == {"query", "variables"}
    ensures body.At("query") == JStr(EpisodeSourcesDocument)
    ensures body.At("variables").JObj?
    ensures body.At("variables").fields.Keys == {"showId", "translationType", "episodeString"}
    ensures body.At("variables").At("showId").AsStr() == Some(animeId)
    ensures body.At("variables").At("episodeString").AsStr() == Some(episodeNumber)
    ensures body.At("variables").At("translationType").AsStr() ==
              Some(if translation == Sub then "sub" else "dub")
  {
    JObj(map[
      "query" := JStr(EpisodeSourcesDocument),
      "variables" := JObj(map[
        "showId" := JStr(animeId),
        "translationType" := JStr(WireToken(translation)),
        "episodeString" := JStr(episodeNumber)])])
  }

  /** Distinct searches send distinct bodies. */
  lemma {:induction false} SearchBodyInjective(q1: string, q2: string)
    ensures SearchBody(q1) == SearchBody(q2) <==> q1 == q2
  {
    if SearchBody(q1) == SearchBody(q2) {
      assert SearchBody(q1).At("variables").At("search").At("query").AsStr() == Some(q1);
    }
  }

  /** Distinct episode-list requests send distinct bodies. */
  lemma {:induction false} EpisodeListBodyInjective(a1: string, a2: string)
    ensures EpisodeListBody(a1) == EpisodeListBody(a2) <==> a1 == a2
  {
    if EpisodeListBody(a1) == EpisodeListBody(a2) {
      assert EpisodeListBody(a1).At("variables").At("showId").AsStr() == Some(a1);
    }
  }

  /** A sources body determines the show, the episode and the translation. */
  lemma {:induction false} EpisodeSourcesBodyInjective(
    a1: string, e1: string, t1: TranslationType, a2: string, e2: string, t2: TranslationType)
    ensures EpisodeSourcesBody(a1, e1, t1) == EpisodeSourcesBody(a2, e2, t2) <==>
              a1 == a2 && e1 == e2 && t1 == t2
  {
    if EpisodeSourcesBody(a1, e1, t1) == EpisodeSourcesBody(a2, e2, t2) {
      var v1 := EpisodeSourcesBody(a1, e1, t1).At("variables");
      assert v1.At("showId").AsStr() == Some(a1);
      assert v1.At("episodeString").AsStr() == Some(e1);
      assert v1.At("translationType").AsStr() == Some(if t1 == Sub then "sub" else "dub");
    }
  }

  // ------------------------------------------------------------- one attempt

  /** An HTTP status: its code and its display text. */
  datatype Status = Status(code: nat, text: string)

  /** `StatusCode::is_success`: 200 through 299. */
  predicate IsSuccess(status: Status) {
    200 <= status.code <= 299
  }

  /** Decoding the body as JSON: a document, or the decoder's complaint. */
  datatype Body = Parsed(value: Json) | Malformed(cause: string)

  /** What one attempt observed: the request never got a response, or a
      response with a status and a body. */
  datatype Exchange = Unreachable(cause: string) | Responded(status: Status, body: Body)

  /** The transport: what attempt `k` of sending `body` observes. */
  type Transport = (Json, nat) -> Exchange

  /** `try_send_request`: a transport failure is a `RequestError`, a non-2xx
      status an `ApiError` (the body is then not read), an undecodable body
      a `JsonRequestError`; only a 2xx response with a JSON body succeeds. */
  function TrySendRequest(x: Exchange): (r: Result<Json, AppError>)
    ensures r.Success? <==> x.Responded? && IsSuccess(x.status) && x.body.Parsed?
    ensures r.Success? ==> r.value == x.body.value
    ensures r.Failure? ==> (r.error.RequestError? <==> x.Unreachable?)
    ensures r.Failure? ==> (r.error.ApiError? <==> x.Responded? && !IsSuccess(x.status))
    ensures r.Failure? ==> (r.error.JsonRequestError? <==> x.Responded? && IsSuccess(x.status))
    ensures r.Failure? ==> r.error.RequestError? || r.error.ApiError? || r.error.JsonRequestError?
  {
    match x
    case Unreachable(cause) => Failure(RequestError(cause))
    case Responded(status, body) =>
      if !IsSuccess(status) then Failure(ApiError(ErrorStatusPrefix + status.text))
      else
        match body
        case Parsed(v) => Success(v)
        case Malformed(cause) => Failure(JsonRequestError(cause))
  }

  function Attempt(transport: Transport, body: Json, k: nat): Result<Json, AppError> {
    TrySendRequest(transport(body, k))
  }

  // --------------------------------------------------------- the retry loop

  /** How many attempts the retry loop makes, counting from attempt `k`:
      it stops after the first success or after attempt `MaxRetries`. */
  function AttemptsFrom(transport: Transport, body: Json, k: nat): nat
    requires k <= MaxRetries
    decreases MaxRetries - k
  {
    if Attempt(transport, body, k).Success? || k == MaxRetries then k + 1
    else AttemptsFrom(transport, body, k + 1)
  }

  /** From attempt `k` the loop makes between `k + 1` and `MaxRetries + 1`
      attempts in all; every one before the last failed, and it stops
      before `MaxRetries + 1` only after a success. */
  lemma {:induction false} AttemptsFromBounds(transport: Transport, body: Json, k: nat)
    requires k <= MaxRetries
    ensures k + 1 <= AttemptsFrom(transport, body, k) <= MaxRetries + 1
    ensures forall j :: k <= j < AttemptsFrom(transport, body, k) - 1 ==> Attempt(transport, body, j).Failure?
    ensures AttemptsFrom(transport, body, k) <= MaxRetries ==>
              Attempt(transport, body, AttemptsFrom(transport, body, k) - 1).Success?
    decreases MaxRetries - k
  {
    if !(Attempt(transport, body, k).Success? || k == MaxRetries) {
      AttemptsFromBounds(transport, body, k + 1);
    }
  }

  /** The number of attempts `send_request` makes. */
  function AttemptsMade(transport: Transport, body: Json): nat {
    AttemptsFrom(transport, body, 0)
  }

  /** Between 1 and `MaxRetries + 1` = 3 attempts: every one but the last
      failed, and fewer than 3 only when the last succeeded. */
  lemma AttemptsMadeBounds(transport: Transport, body: Json)
    ensures 1 <= AttemptsMade(transport, body) <= MaxRetries + 1
    ensures forall j :: 0 <= j < AttemptsMade(transport, body) - 1 ==> Attempt(transport, body, j).Failure?
    ensures AttemptsMade(transport, body) <= MaxRetries ==>
              Attempt(transport, body, AttemptsMade(transport, body) - 1).Success?
  {
    AttemptsFromBounds(transport, body, 0);
  }

  /** The result of `send_request`: what its last attempt returned. */
  function SendOutcome(transport: Transport, body: Json): Result<Json, AppError> {
    Attempt(transport, body, AttemptsMade(transport, body) - 1)
  }

  /** The request succeeds exactly when one of the three attempts succeeds,
      and then it returns the response of the first attempt that did. */
  lemma {:induction false} SendSucceedsIff(transport: Transport, body: Json)
    ensures SendOutcome(transport, body).Success? <==>
              exists k :: 0 <= k <= MaxRetries && Attempt(transport, body, k).Success?
    ensures SendOutcome(transport, body).Success? ==>
              forall k :: 0 <= k < AttemptsMade(transport, body) - 1 ==> Attempt(transport, body, k).Failure?
  {
    AttemptsMadeBounds(transport, body);
    var n := AttemptsMade(transport, body);
    if n <= MaxRetries {
      assert Attempt(transport, body, n - 1).Success?;
    } else if SendOutcome(transport, body).Failure? {
      forall k | 0 <= k <= MaxRetries ensures Attempt(transport, body, k).Failure? {
        if k < n - 1 {
        } else {
          assert k == n - 1;
        }
      }
    }
  }

  /** When the request fails, all three attempts were made and the error is
      the one of the last attempt: never the `UnknownError` fallback. */
  lemma {:induction false} SendFailureIsLastError(transport: Transport, body: Json)
    requires SendOutcome(transport, body).Failure?
    ensures AttemptsMade(transport, body) == MaxRetries + 1
    ensures SendOutcome(transport, body) == Attempt(transport, body, MaxRetries)
    ensures forall k :: 0 <= k <= MaxRetries ==> Attempt(transport, body, k).Failure?
    ensures !SendOutcome(transport, body).error.UnknownError?
  {
    AttemptsMadeBounds(transport, body);
    assert Attempt(transport, body, MaxRetries) == SendOutcome(transport, body);
  }

  /** A transport that always fails meets exactly three attempts. */
  lemma {:induction false} AlwaysFailingTransport(transport: Transport, body: Json)
    requires forall k :: Attempt(transport, body, k).Failure?
    ensures AttemptsMade(transport, body) == 3
    ensures SendOutcome(transport, body) == Attempt(transport, body, 2)
  {
    AttemptsMadeBounds(transport, body);
    var n := AttemptsMade(transport, body);
    assert Attempt(transport, body, n - 1).Failure?;
  }

  /** The loop looks only at whether an attempt failed, never at the kind
      of error: two transports that fail on the same attempts make the same
      number of attempts. */
  lemma {:induction false} RetryIgnoresErrorKind(t1: Transport, t2: Transport, body: Json, k: nat)
    requires k <= MaxRetries
    requires forall j :: k <= j <= MaxRetries ==> Attempt(t1, body, j).Success? == Attempt(t2, body, j).Success?
    ensures AttemptsFrom(t1, body, k) == AttemptsFrom(t2, body, k)
    decreases MaxRetries - k
  {
    if !(Attempt(t1, body, k).Success? || k == MaxRetries) {
      RetryIgnoresErrorKind(t1, t2, body, k + 1);
    }
  }

  /** What the loop does, in order: attempts and the sleeps between them. */
  datatype Event = Call(attempt: nat) | Sleep(millis: nat)

  /** The events of `n` attempts: attempt 0, then a sleep and the next
      attempt, `n - 1` times; a sleep only ever sits between two attempts. */
  function Schedule(n: nat): seq<Event>
    requires n >= 1
  {
    if n == 1 then [Call(0)] else Schedule(n - 1) + [Sleep(RetryDelayMillis), Call(n - 1)]
  }

  /** The schedule alternates: attempt `i / 2` at every even position, a
      500 ms sleep at every odd one. */
  lemma {:induction false} ScheduleAlternates(n: nat)
    requires n >= 1
    ensures |Schedule(n)| == 2 * n - 1
    ensures forall i :: 0 <= i < |Schedule(n)| ==>
              Schedule(n)[i] == if i % 2 == 0 then Call(i / 2) else Sleep(RetryDelayMillis)
  {
    if n > 1 {
      ScheduleAlternates(n - 1);
    }
  }

  function CountSleeps(t: seq<Event>): nat {
    if t == [] then 0 else CountSleeps(t[..|t| - 1]) + (if t[|t| - 1].Sleep? then 1 else 0)
  }

  /** `n` attempts mean `n - 1` sleeps: success on attempt `k` sleeps
      `k - 1` times, and a failed request sleeps twice. */
  lemma {:induction false} ScheduleSleeps(n: nat)
    requires n >= 1
    ensures CountSleeps(Schedule(n)) == n - 1
  {
    if n > 1 {
      ScheduleSleeps(n - 1);
      var s := Schedule(n - 1);
      var t := Schedule(n);
      assert t[..|t| - 1] == s + [Sleep(RetryDelayMillis)];
      assert (s + [Sleep(RetryDelayMillis)])[..|s|] == s;
    }
  }

  /** The events after `failures` failed attempts: their schedule, and the
      sleep before the next attempt while one is still allowed. */
  function TraceAfterFailures(failures: nat): seq<Event> {
    if failures == 0 then []
    else if failures <= MaxRetries then Schedule(failures) + [Sleep(RetryDelayMillis)]
    else Schedule(failures)
  }

  /** `send_request`: the loop over `retry_count` and `last_error`.
      Returns the result and the events it went through. */
  method SendRequest(transport: Transport, body: Json) returns (r: Result<Json, AppError>, trace: seq<Event>)
    ensures r == SendOutcome(transport, body)
    ensures trace == Schedule(AttemptsMade(transport, body))
  {
    var retryCount: nat := 0;
    var lastError: Option<AppError> := None;
    trace := [];
    while retryCount <= MaxRetries
      invariant retryCount <= MaxRetries + 1
      invariant forall j :: 0 <= j < retryCount ==> Attempt(transport, body, j).Failure?
      invariant retryCount > 0 ==> lastError == Some(Attempt(transport, body, retryCount - 1).error)
      invariant trace == TraceAfterFailures(retryCount)
      decreases MaxRetries + 1 - retryCount
    {
      trace := trace + [Call(retryCount)];
      var attempt := TrySendRequest(transport(body, retryCount));
      match attempt {
        case Success(response) =>
          r := Success(response);
          assert AttemptsMade(transport, body) == retryCount + 1;
          return;
        case Failure(e) =>
          retryCount := retryCount + 1;
          lastError := Some(e);
          if retryCount <= MaxRetries {
            trace := trace + [Sleep(RetryDelayMillis)];
          }
      }
    }
    assert AttemptsMade(transport, body) == MaxRetries + 1;
    r := Failure(lastError.GetOr(UnknownError(UnknownRequestMessage)));
  }

  /** `search_anime`. */
  method SearchAnime(transport: Transport, query: string) returns (r: Result<Json, AppError>, trace: seq<Event>)
    ensures r == SendOutcome(transport, SearchBody(query))
    ensures trace == Schedule(AttemptsMade(transport, SearchBody(query)))
  {
    var body := SearchBody(query);
    r, trace := SendRequest(transport, body);
  }

  /** `get_episode_list`. */
  method GetEpisodeList(transport: Transport, animeId: string) returns (r: Result<Json, AppError>, trace: seq<Event>)
    ensures r == SendOutcome(transport, EpisodeListBody(animeId))
    ensures trace == Schedule(AttemptsMade(transport, EpisodeListBody(animeId)))
  {
    var body := EpisodeListBody(animeId);
    r, trace := SendRequest(transport, body);
  }

  /** `fetch_episode_sources`. */
  method FetchEpisodeSources(transport: Transport, animeId: string, episodeNumber: string,
                             translation: TranslationType)
    returns (r: Result<Json, AppError>, trace: seq<Event>)
    ensures r == SendOutcome(transport, EpisodeSourcesBody(animeId, episodeNumber, translation))
    ensures trace == Schedule(AttemptsMade(transport, EpisodeSourcesBody(animeId, episodeNumber, translation)))
  {
    var body := EpisodeSourcesBody(animeId, episodeNumber, translation);
    r, trace := SendRequest(transport, body);
  }
}
