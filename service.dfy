/**
 * The URL service of internal/service: short-code allocation (a custom code
 * or a generated one with bounded collision retry), expiry, write-through to
 * the store and the cache, cache-aside resolution, and the expiry purge.
 *
 * The collaborators are values here. The store and the cache are maps
 * (modules Repo and Cache); the short-code generator is the sequence of codes
 * it would return, `codes[n]` being its output on attempt n; the clock is an
 * integer `now` in nanoseconds; and each fallible collaborator call has a
 * failure flag in `Faults`. The functions below describe one call each; the
 * class URLService runs the same steps on its fields, and its methods are
 * proved equal to these functions.
 */
module Service {
  import opened Results
  import opened Model
  import Repo
  import Cache

  /** `time.Hour`, in nanoseconds. */
  const Hour: int := 3_600_000_000_000

  /** The retry guard is `n > MaxRetry` with `n` counting from 0. */
  const MaxRetry: nat := 5

  /** Generate-and-check attempts the guard allows. */
  const Attempts: nat := MaxRetry + 1

  /**
   * Which collaborator calls fail. `checkFails` holds the indices of the
   * availability checks that fail: the custom-code check is call 0, and the
   * check of generated attempt n is call n.
   */
  datatype Faults = Faults(
    checkFails: set<nat>,
    insertFails: bool,
    cacheGetFails: bool,
    lookupFails: bool,
    cacheSetFails: bool)

  const NoFaults: Faults := Faults({}, false, false, false, false)

  /** The service's configuration: the default lifetime (nanoseconds) and the base of short URLs. */
  datatype Config = Config(defaultDuration: int, baseURL: string)

  /** The store and the cache together. */
  datatype Db = Db(store: Repo.Store, cache: Cache.Entries)

  /** What one call returns and the state it leaves. */
  datatype Step<T> = Step(result: Result<T>, db: Db)

  /** What the retry loop returns and how many codes it asked the generator for. */
  datatype Draw = Draw(result: Result<string>, calls: nat)

  /**
   * `getShortCode(n)`: draw a code, check it, return it when free, retry
   * with `n + 1` when taken, stop when the availability check fails or
   * once `n` passes MaxRetry.
   */
  function Retry(store: Repo.Store, codes: seq<string>, checkFails: set<nat>, n: nat): (d: Draw)
    requires |codes| >= Attempts && n <= Attempts
    ensures n + d.calls <= Attempts
    ensures d.result.Ok? ==> d.result.value !in store
    decreases Attempts - n
  {
    if n > MaxRetry then Draw(Err(TooManyRetries), 0)
    else
      var code := codes[n];
      match Repo.IsShortCodeAvailable(store, code, n in checkFails)
      case Err(e) => Draw(Err(e), 1)
      case Ok(available) =>
        if available then Draw(Ok(code), 1)
        else
          var rest := Retry(store, codes, checkFails, n + 1);
          Draw(rest.result, rest.calls + 1)
  }

  /**
   * The code a creation uses: the custom code when the caller gave one and
   * it is free (with no fallback when it is taken), otherwise the outcome
   * of the retry loop.
   */
  function Allocate(store: Repo.Store, req: CreateURLRequest, codes: seq<string>, checkFails: set<nat>): (r: Result<string>)
    requires |codes| >= Attempts
    ensures r.Ok? ==> r.value !in store
    ensures req.customCode != "" && r.Ok? ==> r.value == req.customCode
  {
    if req.customCode != "" then
      match Repo.IsShortCodeAvailable(store, req.customCode, 0 in checkFails)
      case Err(e) => Err(e)
      case Ok(available) => if available then Ok(req.customCode) else Err(CustomCodeTaken)
    else
      Retry(store, codes, checkFails, 0).result
  }

  /**
   * The expiry of a new record: the default lifetime, or the requested
   * number of hours. With a positive default and at least one hour it lies
   * in the future.
   */
  function ExpiresAt(defaultDuration: int, duration: Option<int>, now: int): (t: int)
    ensures defaultDuration > 0 && (duration.Some? ==> duration.value >= 1) ==> t > now
    ensures duration.Some? && duration.value >= 0 ==> t >= now && (t - now) % Hour == 0
  {
    if duration.None? then now + defaultDuration else now + duration.value * Hour
  }

  /** The record a creation inserts for the allocated code. */
  function NewRecord(cfg: Config, req: CreateURLRequest, code: string, now: int): Repo.Url
  {
    Repo.Url(req.originalUrl, code, ExpiresAt(cfg.defaultDuration, req.duration, now), req.customCode != "")
  }

  /** `CreateURL`: allocate, compute the expiry, insert into the store, mirror into the cache. */
  function Create(cfg: Config, db: Db, req: CreateURLRequest, codes: seq<string>, f: Faults, now: int): Step<CreateURLResponse>
    requires |codes| >= Attempts
  {
    var code := Allocate(db.store, req, codes, f.checkFails);
    if code.Err? then Step(Err(code.error), db)
    else
      var inserted := Repo.CreateURL(db.store, NewRecord(cfg, req, code.value, now), f.insertFails);
      if inserted.0.Err? then Step(Err(inserted.0.error), Db(inserted.1, db.cache))
      else
        var url := inserted.0.value;
        var cached := Cache.SetURL(db.cache, url, f.cacheSetFails);
        if cached.0.Err? then Step(Err(cached.0.error), Db(inserted.1, cached.1))
        else Step(Ok(CreateURLResponse(cfg.baseURL + "/" + url.shortCode, url.expiredAt)), Db(inserted.1, cached.1))
  }

  /** `GetURL`: the cache first, the store on a clean miss, then write the record back. */
  function Resolve(db: Db, code: string, f: Faults, now: int): Step<string>
  {
    match Cache.GetURL(db.cache, code, now, f.cacheGetFails)
    case Err(e) => Step(Err(e), db)
    case Ok(Some(url)) => Step(Ok(url.originalUrl), db)
    case Ok(None) =>
      match Repo.GetUrlByShortCode(db.store, code, f.lookupFails)
      case Err(e) => Step(Err(e), db)
      case Ok(url2) =>
        var cached := Cache.SetURL(db.cache, url2, f.cacheSetFails);
        if cached.0.Err? then Step(Err(cached.0.error), Db(db.store, cached.1))
        else Step(Ok(url2.originalUrl), Db(db.store, cached.1))
  }

  /** `DeleteURL`: the store's purge of expired records; the cache is left to its own time-to-live. */
  function Purge(db: Db, now: int, fail: bool): Step<()>
  {
    var purged := Repo.DeleteUrlExpired(db.store, now, fail);
    Step(purged.0, Db(purged.1, db.cache))
  }

  /** The service object: its store and cache, which its methods update, and its configuration. */
  class URLService {
    var store: Repo.Store
    var cache: Cache.Entries
    const defaultDuration: int
    const baseURL: string

    function State(): Db
      reads this
    {
      Db(store, cache)
    }

    function Cfg(): Config
    {
      Config(defaultDuration, baseURL)
    }

    /** NewURLService: wraps an existing store and cache. */
    constructor (store: Repo.Store, defaultDuration: int, cache: Cache.Entries, baseURL: string)
      ensures State() == Db(store, cache)
      ensures Cfg() == Config(defaultDuration, baseURL)
    {
      this.store := store;
      this.defaultDuration := defaultDuration;
      this.cache := cache;
      this.baseURL := baseURL;
    }

    method CreateURL(req: CreateURLRequest, codes: seq<string>, f: Faults, now: int) returns (r: Result<CreateURLResponse>)
      requires |codes| >= Attempts
      modifies this
      ensures Step(r, State()) == Create(Cfg(), old(State()), req, codes, f, now)
    {
      var shortCode: string;
      var isCustom := false;
      if req.customCode != "" {
        var available := Repo.IsShortCodeAvailable(store, req.customCode, 0 in f.checkFails);
        if available.Err? {
          return Err(available.error);
        }
        if !available.value {
          return Err(CustomCodeTaken);
        }
        shortCode := req.customCode;
        isCustom := true;
      } else {
        var code := GetShortCode(codes, f.checkFails, 0);
        if code.Err? {
          return Err(code.error);
        }
        shortCode := code.value;
      }

      var expiredAt := ExpiresAt(defaultDuration, req.duration, now);

      var inserted := Repo.CreateURL(store, Repo.Url(req.originalUrl, shortCode, expiredAt, isCustom), f.insertFails);
      store := inserted.1;
      if inserted.0.Err? {
        return Err(inserted.0.error);
      }
      var url := inserted.0.value;

      var cached := Cache.SetURL(cache, url, f.cacheSetFails);
      cache := cached.1;
      if cached.0.Err? {
        return Err(cached.0.error);
      }

      r := Ok(CreateURLResponse(baseURL + "/" + url.shortCode, url.expiredAt));
    }

    method GetURL(shortCode: string, f: Faults, now: int) returns (r: Result<string>)
      modifies this
      ensures Step(r, State()) == Resolve(old(State()), shortCode, f, now)
    {
      var url := Cache.GetURL(cache, shortCode, now, f.cacheGetFails);
      if url.Err? {
        return Err(url.error);
      }
      if url.value.Some? {
        return Ok(url.value.value.originalUrl);
      }
      var url2 := Repo.GetUrlByShortCode(store, shortCode, f.lookupFails);
      if url2.Err? {
        return Err(url2.error);
      }
      var cached := Cache.SetURL(cache, url2.value, f.cacheSetFails);
      cache := cached.1;
      if cached.0.Err? {
        return Err(cached.0.error);
      }
      r := Ok(url2.value.originalUrl);
    }

    /**
     * `getShortCode` from attempt n: draw, check, return a free code, and
     * move to the next attempt on a collision until the guard `n > MaxRetry`
     * stops it. The source recurses on the counter; this is the same bounded
     * iteration written as a loop.
     */
    method GetShortCode(codes: seq<string>, checkFails: set<nat>, n: nat) returns (code: Result<string>)
      requires |codes| >= Attempts && n <= Attempts
      ensures code == Retry(store, codes, checkFails, n).result
      ensures code.Ok? ==> code.value !in store
    {
      var attempt := n;
      while attempt <= MaxRetry
        invariant n <= attempt <= Attempts
        invariant Retry(store, codes, checkFails, attempt).result == Retry(store, codes, checkFails, n).result
        decreases Attempts - attempt
      {
        var shortCode := codes[attempt];
        var available := Repo.IsShortCodeAvailable(store, shortCode, attempt in checkFails);
        if available.Err? {
          return Err(available.error);
        }
        if available.value {
          return Ok(shortCode);
        }
        attempt := attempt + 1;
      }
      code := Err(TooManyRetries);
    }

    method DeleteURL(now: int, fail: bool) returns (r: Result<()>)
      modifies this
      ensures Step(r, State()) == Purge(old(State()), now, fail)
    {
      var purged := Repo.DeleteUrlExpired(store, now, fail);
      store := purged.1;
      r := purged.0;
    }
  }
}
