/**
 * The durable store behind `repo.Querier`, as a map from short code to
 * record. Each fallible call takes a flag that makes it fail the way the
 * database can; the flag stands for the infrastructure, not for the data.
 */
module Repo {
  import opened Results

  /** A stored record. Its key in the store is its short code. */
  datatype Url = Url(originalUrl: string, shortCode: string, expiredAt: int, isCustom: bool)

  type Store = map<string, Url>

  /** Every record is filed under its own short code. */
  predicate Keyed(store: Store)
  {
    forall c :: c in store ==> store[c].shortCode == c
  }

  /** `IsShortCodeAvailable`: true when no record, live or expired, holds the code. */
  function IsShortCodeAvailable(store: Store, code: string, fail: bool): Result<bool>
  {
    if fail then Err(StoreFailure) else Ok(code !in store)
  }

  /** `CreateURL`: inserts the record and returns it as stored; the primary key refuses a duplicate. */
  function CreateURL(store: Store, params: Url, fail: bool): (Result<Url>, Store)
  {
    if fail then (Err(StoreFailure), store)
    else if params.shortCode in store then (Err(DuplicateKey), store)
    else (Ok(params), store[params.shortCode := params])
  }

  /** `GetUrlByShortCode`: the record for the code, or NotFound when there is none. */
  function GetUrlByShortCode(store: Store, code: string, fail: bool): Result<Url>
  {
    if fail then Err(StoreFailure)
    else if code !in store then Err(NotFound)
    else Ok(store[code])
  }

  /** The records that have not expired at `now`: the assumed semantics of the store's purge. */
  function Live(store: Store, now: int): Store
  {
    map c | c in store && now < store[c].expiredAt :: store[c]
  }

  /** `DeleteUrlExpired`: removes every record whose expiry is at or before `now`. */
  function DeleteUrlExpired(store: Store, now: int, fail: bool): (Result<()>, Store)
  {
    if fail then (Err(StoreFailure), store) else (Ok(()), Live(store, now))
  }

  /** Purging twice in a row removes nothing the second time. */
  lemma PurgeIdempotent(store: Store, now: int)
    ensures Live(Live(store, now), now) == Live(store, now)
  {
  }

  /** A purge keeps records and their keys as they were: it only drops. */
  lemma PurgeKeepsKeyed(store: Store, now: int)
    requires Keyed(store)
    ensures Keyed(Live(store, now)) && Live(store, now).Keys <= store.Keys
  {
  }
}
