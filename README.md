# URL shortener: allocation and cache-aside, modelled in Dafny

This project models the core of a URL shortener written in Go: the service
that turns a long URL into a short code and resolves codes back, and the
random short-code generator it uses.

- **Generator** (`Shortcode`, from `pkg/shortcode/shortcode.go`): a fixed
  alphabet of 36 symbols (`1`–`9`, `0`, `a`–`z`) and a `ShortCode` object
  whose `GenerateShortCode` fills a fresh buffer of the configured length,
  position by position, with `Chars[rand.Intn(36)]`. The random draws are a
  parameter: the method receives the indices `rand.Intn` would return.
- **Service** (`Service`, from `internal/service/url.go`): the class
  `URLService` holds the store and the cache as maps and runs the source's
  steps on them:
  - `CreateURL` uses a free custom code, or draws generated codes through the
    bounded retry of `GetShortCode`. It then computes the expiry, inserts the
    record and mirrors it into the cache.
  - `GetURL` asks the cache, then the store on a clean miss, then writes the
    record back into the cache.
  - `DeleteURL` asks the store to purge expired records.

  Each method is proved equal to a function (`Create`, `Resolve`, `Retry`,
  `Purge`) that describes one call, and the properties are lemmas about those
  functions (`ServiceProperties`).
- **Collaborators**:
  - **Store** (`Repo`): the store behind `repo.Querier` is a map from code to
    record with `IsShortCodeAvailable`, `CreateURL`, `GetUrlByShortCode` and
    `DeleteUrlExpired`.
  - **Cache** (`Cache`): the `Cacher` is a map whose entries are served only
    while `now < expiredAt`. This is the time-to-live `time.Until(ExpiredAt)`
    that `internal/cache/redis.go` sets. A miss (`None`) is distinct from a
    failure.
  - **Generator**: the `ShortCodeGenerator` interface becomes the sequence
    `codes` of its outputs. Attempt `n` uses `codes[n]`.
  - **Failures**: each fallible call has a failure flag in `Faults`.
    `checkFails` lists which availability checks fail. The custom-code check
    is call 0, and the check on generated attempt `n` is call `n`.
  - **Clock**: `time.Now()` becomes the parameter `now`, counted in
    nanoseconds as `time.Duration` counts.

The retry guard is `n > 5` with `n` starting at 0, so up to six codes are
drawn and checked before "too many retries", not five.
`ServiceProperties.GeneratedExhausted` proves that exhaustion takes exactly
six generator calls. `GetShortCode` keeps the source's attempt counter and
guard, but runs the bounded retry as a loop rather than by recursion.

The record's lifetime mixes units as the code does. With no duration it is
`now + defaultDuration`, where `defaultDuration` is a raw `time.Duration`.
With a duration `d` it is `now + d * time.Hour`, where `d` is a count of
hours.

Beyond the source's own steps, the model proves that one invariant holds:
every cache entry still served equals the store's record for that code
(`ServiceProperties.Consistent`). Every call preserves it, and under it a
resolution never returns a stale target.

## Model

| member | source | states |
|---|---|---|
| `Shortcode.CharsDistinct` | pkg/shortcode/shortcode.go:11 | the alphabet has exactly 36 symbols, pairwise distinct |
| `Shortcode.CharsAreDigitsAndLetters` | pkg/shortcode/shortcode.go:11 | a character is in the alphabet if and only if it is a digit or a lower-case letter |
| `Shortcode.CharsAlphanumeric` | pkg/shortcode/shortcode.go:11 | every alphabet symbol is in the validator's `alphanum` class, the class custom codes are checked against |
| `Shortcode.CharsAt` | pkg/shortcode/shortcode.go:11 | position k of the alphabet is `1`+k for k < 9, `0` at 9, and `a`+(k-10) after that |
| `Shortcode.Spell` | pkg/shortcode/shortcode.go:20-26 | the code spelled by drawn indices has one symbol per draw, symbol i being `Chars[k_i]`, all in the alphabet |
| `Shortcode.SpellIndices` | pkg/shortcode/shortcode.go:20-24 | every string over the alphabet is spelled by some draws, namely its positions in the alphabet |
| `Shortcode.IndicesSpell` | pkg/shortcode/shortcode.go:20-24 | distinct draw sequences spell distinct codes: reading a spelled code back gives the draws |
| `Shortcode.SpellAlphanumeric` | pkg/shortcode/shortcode.go:24 | every generated character is alphanumeric |
| `Shortcode.ShortCode.constructor` | pkg/shortcode/shortcode.go:13-17 | `NewShortCode(n)` stores the length n and nothing else |
| `Shortcode.ShortCode.GenerateShortCode` | pkg/shortcode/shortcode.go:19-27 | for a non-negative length, the buffer filled in place yields exactly the spelling of the draws: length `length`, every symbol from the alphabet |
| `Repo.IsShortCodeAvailable` | internal/service/url.go:45 | the store's availability check: an error when the call fails, otherwise true exactly when no record, live or expired, holds the code |
| `Repo.CreateURL` | internal/service/url.go:69-78 | the store's insert: an error and no change when the call fails or the code is already a key, otherwise the record filed under its code and returned as stored |
| `Repo.GetUrlByShortCode` | internal/service/url.go:102-105 | the store's lookup: an error when the call fails, NotFound when no record holds the code, otherwise that record |
| `Repo.Live` | internal/service/url.go:129 | the assumed semantics of the store's purge: the records whose expiry is after `now`, kept as they were |
| `Repo.DeleteUrlExpired` | internal/service/url.go:129 | the store's purge: an error and no change when the call fails, otherwise the store reduced to `Live` |
| `Cache.Visible` | internal/cache/redis.go:38 | an entry is served while `now` is before the record's expiry, the time-to-live `time.Until(ExpiredAt)` set on write |
| `Cache.GetURL` | internal/cache/redis.go:44-58 | the cache read: a failure, a hit with the entry still served, or a clean miss (`None`) that is not an error |
| `Cache.SetURL` | internal/cache/redis.go:33-42 | the cache write: a failure leaves the cache as it was, otherwise the record is filed under its short code, replacing any earlier entry |
| `Repo.PurgeIdempotent` | internal/service/url.go:128-130 | purging twice at the same time equals purging once |
| `Repo.PurgeKeepsKeyed` | internal/service/url.go:128-130 | a purge only removes records and keeps every remaining record under its own code |
| `Service.Retry` | internal/service/url.go:113-126 | the retry loop asks the generator at most six times in all, and any code it returns was free in the store |
| `Service.Allocate` | internal/service/url.go:44-60 | an allocated code is free in the store, and it is the custom code whenever one was given |
| `Service.NewRecord` | internal/service/url.go:69-74 | the record the insert is given: the requested target, the allocated code, the computed expiry, and `isCustom` exactly when a custom code was supplied |
| `Service.Create` | internal/service/url.go:40-90 | one creation as a function of the old store and cache: allocation, expiry, insert, cache write, each error returned at its step with the state that step left |
| `Service.Resolve` | internal/service/url.go:92-111 | one resolution as a function of the old store and cache: cache read, store lookup on a clean miss, write-back, each error returned at its step |
| `Service.Purge` | internal/service/url.go:128-130 | one purge call: the store's purge result and new store, with the cache unchanged |
| `Service.ExpiresAt` | internal/service/url.go:62-66 | the expiry is after `now` when the default lifetime is positive and any requested duration is at least one hour; a requested duration adds whole hours |
| `Service.URLService.constructor` | internal/service/url.go:30-38 | the service starts with the given store, cache, default lifetime and base URL |
| `Service.URLService.CreateURL` | internal/service/url.go:40-90 | the result and the new store and cache are those of `Create` on the old state |
| `Service.URLService.GetURL` | internal/service/url.go:92-111 | the result and the new store and cache are those of `Resolve` on the old state |
| `Service.URLService.GetShortCode` | internal/service/url.go:113-126 | the bounded retry loop from attempt n returns the outcome of `Retry`, its invariant being that the remaining attempts decide the same outcome; a returned code is free |
| `Service.URLService.DeleteURL` | internal/service/url.go:128-130 | the result and new state are those of the store's purge; the cache is not touched |
| `ServiceProperties.RetryStopsAtFirstDecisive` | internal/service/url.go:113-126 | the first attempt whose check fails or whose code is free ends the loop, with the store's error or that code, after exactly i-n+1 generator calls |
| `ServiceProperties.RetryExhausted` | internal/service/url.go:114-125 | "too many retries" happens if and only if all six attempts drew a taken code with a working check, and then after exactly six generator calls |
| `ServiceProperties.RetryOutcome` | internal/service/url.go:113-126 | every outcome of the loop comes from its first non-colliding attempt or from exhaustion; a free code is never skipped |
| `ServiceProperties.CreateEffects` | internal/service/url.go:40-90 | a failed allocation or insert changes nothing; a failed cache write leaves the new record in the store only; a success files the same record, under a code that was free, in store and cache and answers `baseURL + "/" + code` with the stored expiry |
| `ServiceProperties.CreateNeverDuplicate` | internal/service/url.go:44-78 | the insert never meets an existing record, because an availability check always runs first in a sequential run |
| `ServiceProperties.CreateKeepsExisting` | internal/service/url.go:69-78 | existing records are never overwritten, and after a success the code is no longer available |
| `ServiceProperties.CustomCode` | internal/service/url.go:44-53 | with a custom code the generator is never consulted; a failed check or a taken code fails with no change and no fallback; a free code is inserted as given, marked custom |
| `ServiceProperties.CustomCodeTwice` | internal/service/url.go:44-51 | the same custom code used again after a success fails with "customized code existed", not with retries |
| `ServiceProperties.GeneratedExhausted` | internal/service/url.go:54-58 | with no custom code and six taken generated codes, creation fails with "too many retries" after six generator calls and changes nothing |
| `ServiceProperties.GeneratedFirstDecisive` | internal/service/url.go:54-60 | with no custom code, a failed availability check aborts creation with no further attempt and no change; otherwise the first free generated code is inserted, not marked custom |
| `ServiceProperties.CreateExpiresLater` | internal/service/url.go:62-87 | with a positive default lifetime and a valid request, the expiry answered is after `now` |
| `ServiceProperties.CreatedCodeShape` | internal/service/url.go:44-60 | with the alphabet generator of length L, a generated code has length L over the alphabet; with a valid request every created code is alphanumeric |
| `ServiceProperties.ResolveCacheFirst` | internal/service/url.go:94-100 | a cache failure is returned without consulting the store; a cache hit returns the cached target, consults no store and changes nothing |
| `ServiceProperties.ResolveMiss` | internal/service/url.go:101-110 | after a clean miss, a store failure or a missing record is returned with the cache untouched; a found record is written back and its target returned, or the write-back failure returned |
| `ServiceProperties.CreateThenResolve` | internal/service/url.go:80-110 | after a successful creation the code resolves to the requested target, from the cache while the entry lives and from the store after the entry is evicted |
| `ServiceProperties.PurgedThenNotFound` | internal/service/url.go:128-130 | after a purge at or past the record's expiry the code resolves to NotFound |
| `ServiceProperties.PurgeTwice` | internal/service/url.go:128-130 | a second purge at the same time changes nothing and returns the same result |
| `ServiceProperties.ClockAdvance` | internal/cache/redis.go:38 | consistency is kept as time passes, since an entry served later was served earlier |
| `ServiceProperties.CreatePreservesConsistent` | internal/service/url.go:69-83 | creation keeps every served cache entry equal to the store's record, even when the cache write fails |
| `ServiceProperties.ResolvePreservesConsistent` | internal/service/url.go:94-110 | resolution never changes the store and keeps the cache consistent with it |
| `ServiceProperties.PurgePreservesConsistent` | internal/service/url.go:128-130 | the purge keeps the cache consistent, because entries still served belong to records that are not yet expired |
| `ServiceProperties.ResolveNeverStale` | internal/service/url.go:92-111 | in a consistent state, any target a resolution returns is the store's record for the code |

## Left out

- HTTP routing, binding, validation and the mapping of errors to status codes (`internal/api/url.go`): not part of this model. The validator's tags appear only as the predicate `Model.ValidRequest`, without the URL-format check.
- The cleanup ticker, the server goroutines and signal-driven shutdown (`application/app.go`): timer- and concurrency-driven. One `DeleteURL` call is modelled.
- Concurrency, including the race between the availability check and the insert: the model is sequential, so the check and the insert behave as one step. The store still refuses a duplicate key (`DuplicateKey`), and `CreateNeverDuplicate` proves that refusal is never reached.
- `math/rand` and the wall clock: replaced by injected draws, injected generator outputs and the `now` parameter.
- Context cancellation and timeouts: not modelled. A collaborator's failure flag stands for any error it returns.
- The generated `repo` package is not part of this model. The model assumes:
  - the store is a map keyed by short code, with a primary key on the code;
  - the record ID and creation timestamp are not modelled;
  - the database's timestamp precision is not modelled, and a record reads back exactly as inserted;
  - `GetUrlByShortCode` does not filter out expired records;
  - a failed insert or purge leaves the store unchanged;
  - the purge removes records with expiry at or before `now`.
- The Redis adapter (`internal/cache/redis.go`): JSON encoding and the client are not modelled. Only the contract is kept: a miss is distinct from an error, entries are keyed by code, and an entry lives until the record's expiry. A failed write is taken to leave the cache unchanged. go-redis's handling of a non-positive time-to-live is not modelled: the model never serves such an entry, whereas go-redis sends no expiry for a zero or negative duration, so the entry stays until evicted. In the real system a record resolved after its expiry but before the purge would be written back without expiry and keep being served. `ServiceProperties.PurgedThenNotFound`, `ServiceProperties.Consistent` and `ServiceProperties.ResolveNeverStale` rest on the model's choice.
- The purge returns only success or an error, as `DeleteURL` does; no count of deleted records is modelled.
- Service.ExpiresAt: does not model the 64-bit wrap-around of `time.Duration(d) * time.Hour` or of `time.Time.Add`. Integers are unbounded, and the validator's duration range of 1 to 100 hours keeps real values far from overflow.
- Configuration loading, the database connection and process start-up (`config/config.go`, `database/query/db.go`, `main.go`): not part of this model.
