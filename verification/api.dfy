/** The JSON response builders of lib/utils/api.ts: a body, a status and a
    header map, with defaults for each option the caller leaves out. */
module Api {
  import opened Common

  /** `CACHE_DURATIONS`. */
  const NoCache := "no-store, max-age=0"
  const ShortCache := "private, max-age=5"
  const MediumCache := "private, max-age=60"
  const LongCache := "private, max-age=300"

  type Headers = map<string, string>

  /** The options object; `None` is an omitted field. */
  datatype Options = Options(status: Option<int>, cacheControl: Option<string>, headers: Option<Headers>)

  /** Options that set nothing. */
  const NoOptions := Options(None, None, None)

  datatype Response<T> = Response(body: T, status: int, headers: Headers)

  /** The body of an error response. */
  datatype ErrorBody = ErrorBody(error: string)

  /** The header object `{ 'Cache-Control': cacheControl, ...headers }`:
      the caller's headers are spread last and win. */
  function WithCacheControl(cacheControl: string, headers: Headers): (h: Headers)
    ensures h.Keys == headers.Keys + {"Cache-Control"}
    ensures forall k :: k in headers ==> h[k] == headers[k]
    ensures "Cache-Control" !in headers ==> h["Cache-Control"] == cacheControl
  {
    map["Cache-Control" := cacheControl] + headers
  }

  /** Builds a response with the given defaults for status and Cache-Control. */
  function Build<T>(body: T, options: Option<Options>, defaultStatus: int, defaultCache: string): Response<T> {
    var o := options.GetOr(NoOptions);
    Response(body, o.status.GetOr(defaultStatus),
             WithCacheControl(o.cacheControl.GetOr(defaultCache), o.headers.GetOr(map[])))
  }

  /** `apiResponse`: status 200 and a one-minute private cache unless the
      options say otherwise. */
  function ApiResponse<T>(data: T, options: Option<Options>): (r: Response<T>)
    ensures r.body == data
    ensures r.status == (if options.Some? && options.value.status.Some? then options.value.status.value else 200)
    ensures "Cache-Control" in r.headers
    ensures options.None? ==> r.headers == map["Cache-Control" := MediumCache]
  {
    Build(data, options, 200, MediumCache)
  }

  /** `apiError`: the message wrapped as `{ error }`, status 400 and no
      caching unless the options say otherwise. */
  function ApiError(message: string, options: Option<Options>): (r: Response<ErrorBody>)
    ensures r.body == ErrorBody(message)
    ensures r.status == (if options.Some? && options.value.status.Some? then options.value.status.value else 400)
    ensures "Cache-Control" in r.headers
    ensures options.None? ==> r.headers == map["Cache-Control" := NoCache]
  {
    Build(ErrorBody(message), options, 400, NoCache)
  }

  /** `authError`. */
  function AuthError(): (r: Response<ErrorBody>)
    ensures r == Response(ErrorBody("Unauthorized"), 401, map["Cache-Control" := NoCache])
  {
    ApiError("Unauthorized", Some(Options(Some(401), Some(NoCache), None)))
  }

  /** `serverError`: the error is only logged, never echoed. */
  function ServerError<E>(error: E): (r: Response<ErrorBody>)
    ensures r == Response(ErrorBody("Internal server error"), 500, map["Cache-Control" := NoCache])
  {
    ApiError("Internal server error", Some(Options(Some(500), Some(NoCache), None)))
  }

  /** The Cache-Control a response ends up with: a caller-supplied header of
      that name, else the `cacheControl` option, else the builder's default. */
  lemma CacheControlPrecedence<T>(data: T, o: Options)
    ensures var h := ApiResponse(data, Some(o)).headers;
            h["Cache-Control"] ==
              if o.headers.Some? && "Cache-Control" in o.headers.value then o.headers.value["Cache-Control"]
              else if o.cacheControl.Some? then o.cacheControl.value
              else MediumCache
    ensures var h := ApiError("", Some(o)).headers;
            h["Cache-Control"] ==
              if o.headers.Some? && "Cache-Control" in o.headers.value then o.headers.value["Cache-Control"]
              else if o.cacheControl.Some? then o.cacheControl.value
              else NoCache
  {
  }

  /** Every server error looks the same whatever went wrong. */
  lemma ServerErrorHidesCause<E>(e1: E, e2: E)
    ensures ServerError(e1) == ServerError(e2)
  {
  }
}
