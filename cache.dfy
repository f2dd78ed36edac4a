/**
 * The cache behind the `Cacher` interface, as a map from short code to
 * record. An entry is written with a time-to-live that runs until the
 * record's expiry, so it is visible only while `now < expiredAt`; an
 * absent or timed-out entry is a clean miss, distinct from a failure.
 */
module Cache {
  import opened Results
  import opened Repo

  type Entries = map<string, Url>

  /** An entry the cache still serves at `now`. */
  predicate Visible(cache: Entries, code: string, now: int)
  {
    code in cache && now < cache[code].expiredAt
  }

  /** `GetURL`: a failure, a hit with the record, or a clean miss (`None`). */
  function GetURL(cache: Entries, code: string, now: int, fail: bool): Result<Option<Url>>
  {
    if fail then Err(CacheFailure)
    else if Visible(cache, code, now) then Ok(Some(cache[code]))
    else Ok(None)
  }

  /** `SetURL`: files the record under its short code, replacing any earlier entry. */
  function SetURL(cache: Entries, url: Url, fail: bool): (Result<()>, Entries)
  {
    if fail then (Err(CacheFailure), cache) else (Ok(()), cache[url.shortCode := url])
  }
}
