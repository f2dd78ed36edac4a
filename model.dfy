/** The request and response records of internal/model and the request validator's tags. */
module Model {
  import opened Results
  import Shortcode

  /** A creation request: the target, an optional custom code ("" when absent), an optional hour count. */
  datatype CreateURLRequest = CreateURLRequest(originalUrl: string, customCode: string, duration: Option<int>)

  /** A creation response: the full short URL and the expiry of the stored record. */
  datatype CreateURLResponse = CreateURLResponse(shortUrl: string, expiredAt: int)

  /**
   * What the boundary layer's validator admits before the service is reached:
   * a custom code is empty or 4 to 10 alphanumeric characters, a duration
   * is absent or between 1 and 100 hours. The URL-format check is not modelled.
   */
  predicate ValidRequest(req: CreateURLRequest)
  {
    (req.customCode == "" ||
      (4 <= |req.customCode| <= 10 &&
       forall i :: 0 <= i < |req.customCode| ==> Shortcode.IsAlphanumeric(req.customCode[i]))) &&
    (req.duration.Some? ==> 1 <= req.duration.value <= 100)
  }
}
