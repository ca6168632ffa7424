/** The JSON envelope the API routes answer with (`ApiResponse<T>`), together with the HTTP
    status and the cache header the route attaches. */
module Api {
  import opened Wrappers

  datatype Response<T> = Response(
    status: nat,
    success: bool,
    data: T,
    timestamp: string,
    error: Option<string>,
    cacheControl: Option<string>)

  /** Successful answers may be cached by a shared cache for five minutes and served stale
      for ten more while revalidating. */
  const CacheControl: string := "public, s-maxage=300, stale-while-revalidate=600"

  /** The 200 answer, cacheable. */
  function Ok<T>(data: T, now: string): Response<T>
  {
    Response(200, true, data, now, None, Some(CacheControl))
  }

  /** The 500 answer, not cacheable. */
  function ServerError<T>(message: string, empty: T, now: string): Response<T>
  {
    Response(500, false, empty, now, Some(message), None)
  }
}
