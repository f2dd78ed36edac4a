/**
 * What the URL service promises, proved about the functions that describe
 * its calls: how the retry loop ends and how often it asks the generator,
 * which collaborators each path touches and in which order errors win, the
 * round trip from creation to resolution, the expiry purge, and a
 * consistency invariant between cache and store that every call keeps.
 */
module ServiceProperties {
  import opened Results
  import opened Model
  import opened Service
  import Repo
  import Cache
  import Shortcode

  /** Attempts `from` up to `to` (exclusive) all drew a taken code and their check answered. */
  ghost predicate Collided(store: Repo.Store, codes: seq<string>, checkFails: set<nat>, from: nat, to: nat)
    requires to <= |codes|
  {
    forall j :: from <= j < to ==> j !in checkFails && codes[j] in store
  }

  // ---------------------------------------------------------------------------
  // The retry loop

  /**
   * The first attempt that does not collide decides the outcome: a failed
   * check aborts with the store's error, a free code is returned; either
   * way after exactly `i - n + 1` generator calls.
   */
  lemma {:induction false} RetryStopsAtFirstDecisive(store: Repo.Store, codes: seq<string>, checkFails: set<nat>, n: nat, i: nat)
    requires |codes| >= Attempts && n <= i < Attempts
    requires Collided(store, codes, checkFails, n, i)
    requires i in checkFails || codes[i] !in store
    ensures Retry(store, codes, checkFails, n)
         == Draw(if i in checkFails then Err(StoreFailure) else Ok(codes[i]), i - n + 1)
    decreases i - n
  {
    if n < i {
      RetryStopsAtFirstDecisive(store, codes, checkFails, n + 1, i);
    }
  }

  /** Six collisions in a row, and only that, end in TooManyRetries, after exactly six generator calls. */
  lemma {:induction false} RetryExhausted(store: Repo.Store, codes: seq<string>, checkFails: set<nat>, n: nat)
    requires |codes| >= Attempts && n <= Attempts
    ensures Retry(store, codes, checkFails, n).result == Err(TooManyRetries)
        <==> Collided(store, codes, checkFails, n, Attempts)
    ensures Collided(store, codes, checkFails, n, Attempts)
        ==> Retry(store, codes, checkFails, n).calls == Attempts - n
    decreases Attempts - n
  {
    if n < Attempts {
      RetryExhausted(store, codes, checkFails, n + 1);
    }
  }

  /**
   * Conversely, every outcome comes from such an attempt: the loop stops at
   * the first attempt whose check fails or whose code is free, or after the
   * last attempt; it never skips a free code.
   */
  lemma {:induction false} RetryOutcome(store: Repo.Store, codes: seq<string>, checkFails: set<nat>, n: nat)
    requires |codes| >= Attempts && n <= Attempts
    ensures var d := Retry(store, codes, checkFails, n);
      (d.result == Err(TooManyRetries) && n + d.calls == Attempts && Collided(store, codes, checkFails, n, Attempts)) ||
      (1 <= d.calls && n + d.calls <= Attempts &&
       Collided(store, codes, checkFails, n, n + d.calls - 1) &&
       (if n + d.calls - 1 in checkFails then d.result == Err(StoreFailure)
        else codes[n + d.calls - 1] !in store && d.result == Ok(codes[n + d.calls - 1])))
    decreases Attempts - n
  {
    if n < Attempts {
      RetryOutcome(store, codes, checkFails, n + 1);
    }
  }

  // ---------------------------------------------------------------------------
  // Creation

  /**
   * The effects of one creation. A failed allocation changes nothing; a
   * failed insert changes nothing; a failed cache write leaves the record
   * in the store only; a success files the same new record, under a code
   * that was free, in both, and answers with `baseURL/code` and its expiry.
   */
  lemma CreateEffects(cfg: Config, db: Db, req: CreateURLRequest, codes: seq<string>, f: Faults, now: int)
    requires |codes| >= Attempts
    ensures var s := Create(cfg, db, req, codes, f, now);
      var code := Allocate(db.store, req, codes, f.checkFails);
      (code.Err? ==> s == Step(Err(code.error), db)) &&
      (code.Ok? ==>
        var u := NewRecord(cfg, req, code.value, now);
        code.value !in db.store &&
        (f.insertFails ==> s == Step(Err(StoreFailure), db)) &&
        (!f.insertFails && f.cacheSetFails ==>
          s == Step(Err(CacheFailure), Db(db.store[code.value := u], db.cache))) &&
        (!f.insertFails && !f.cacheSetFails ==>
          s == Step(Ok(CreateURLResponse(cfg.baseURL + "/" + code.value, u.expiredAt)),
                    Db(db.store[code.value := u], db.cache[code.value := u]))))
  {
  }

  /** The store's duplicate-key refusal is never reached: the availability check always ran first. */
  lemma CreateNeverDuplicate(cfg: Config, db: Db, req: CreateURLRequest, codes: seq<string>, f: Faults, now: int)
    requires |codes| >= Attempts
    ensures Create(cfg, db, req, codes, f, now).result != Err(DuplicateKey)
  {
    CreateEffects(cfg, db, req, codes, f, now);
  }

  /** Existing records are never overwritten, and a success leaves its code taken. */
  lemma CreateKeepsExisting(cfg: Config, db: Db, req: CreateURLRequest, codes: seq<string>, f: Faults, now: int)
    requires |codes| >= Attempts
    ensures var s := Create(cfg, db, req, codes, f, now);
      db.store.Keys <= s.db.store.Keys &&
      (forall c :: c in db.store ==> s.db.store[c] == db.store[c]) &&
      (s.result.Ok? ==> Repo.IsShortCodeAvailable(s.db.store, Allocate(db.store, req, codes, f.checkFails).value, false) == Ok(false))
  {
    CreateEffects(cfg, db, req, codes, f, now);
  }

  /**
   * A custom code takes precedence: the generator is never consulted (the
   * outcome does not depend on its codes); a free code is used as given,
   * with `isCustom`; a taken one fails with CustomCodeTaken and a failed
   * check with the store's error, both leaving store and cache as they were.
   */
  lemma CustomCode(cfg: Config, db: Db, req: CreateURLRequest, codes: seq<string>, codes': seq<string>, f: Faults, now: int)
    requires |codes| >= Attempts && |codes'| >= Attempts
    requires req.customCode != ""
    ensures Create(cfg, db, req, codes, f, now) == Create(cfg, db, req, codes', f, now)
    ensures 0 in f.checkFails ==> Create(cfg, db, req, codes, f, now) == Step(Err(StoreFailure), db)
    ensures 0 !in f.checkFails && req.customCode in db.store
         ==> Create(cfg, db, req, codes, f, now) == Step(Err(CustomCodeTaken), db)
    ensures 0 !in f.checkFails && req.customCode !in db.store && !f.insertFails
         ==> var s := Create(cfg, db, req, codes, f, now);
             s.db.store == db.store[req.customCode := NewRecord(cfg, req, req.customCode, now)] &&
             s.db.store[req.customCode].isCustom
  {
  }

  /** Trying the same custom code again right after a success fails with CustomCodeTaken, not TooManyRetries. */
  lemma CustomCodeTwice(cfg: Config, db: Db, req: CreateURLRequest, req': CreateURLRequest,
                        codes: seq<string>, f: Faults, f': Faults, now: int, now': int)
    requires |codes| >= Attempts
    requires req.customCode != "" && req'.customCode == req.customCode
    requires Create(cfg, db, req, codes, f, now).result.Ok?
    requires 0 !in f'.checkFails
    ensures var s := Create(cfg, db, req, codes, f, now);
      Create(cfg, s.db, req', codes, f', now') == Step(Err(CustomCodeTaken), s.db)
  {
    CreateEffects(cfg, db, req, codes, f, now);
  }

  /** Without a custom code, all six generated codes taken: TooManyRetries, and nothing changes. */
  lemma GeneratedExhausted(cfg: Config, db: Db, req: CreateURLRequest, codes: seq<string>, f: Faults, now: int)
    requires |codes| >= Attempts
    requires req.customCode == ""
    requires Collided(db.store, codes, f.checkFails, 0, Attempts)
    ensures Create(cfg, db, req, codes, f, now) == Step(Err(TooManyRetries), db)
    ensures Retry(db.store, codes, f.checkFails, 0).calls == Attempts
  {
    RetryExhausted(db.store, codes, f.checkFails, 0);
  }

  /**
   * Without a custom code, the first attempt that does not collide decides:
   * a failed check aborts with no further attempt and no change; a free
   * code is inserted, marked as not custom.
   */
  lemma GeneratedFirstDecisive(cfg: Config, db: Db, req: CreateURLRequest, codes: seq<string>, f: Faults, now: int, i: nat)
    requires |codes| >= Attempts && i < Attempts
    requires req.customCode == ""
    requires Collided(db.store, codes, f.checkFails, 0, i)
    requires i in f.checkFails || codes[i] !in db.store
    ensures i in f.checkFails ==> Create(cfg, db, req, codes, f, now) == Step(Err(StoreFailure), db)
    ensures i !in f.checkFails && !f.insertFails ==>
      var s := Create(cfg, db, req, codes, f, now);
      s.db.store == db.store[codes[i] := NewRecord(cfg, req, codes[i], now)] && !s.db.store[codes[i]].isCustom
  {
    RetryStopsAtFirstDecisive(db.store, codes, f.checkFails, 0, i);
  }

  /** The stored expiry is in the future whenever the default lifetime is positive and the request is valid. */
  lemma CreateExpiresLater(cfg: Config, db: Db, req: CreateURLRequest, codes: seq<string>, f: Faults, now: int)
    requires |codes| >= Attempts
    requires cfg.defaultDuration > 0 && ValidRequest(req)
    requires Create(cfg, db, req, codes, f, now).result.Ok?
    ensures Create(cfg, db, req, codes, f, now).result.value.expiredAt > now
  {
    CreateEffects(cfg, db, req, codes, f, now);
  }

  /**
   * When the generator is the alphabet generator of length L, a generated
   * record's code has length L over the alphabet, and with a valid request
   * every created code, custom or generated, is alphanumeric.
   */
  lemma CreatedCodeShape(cfg: Config, db: Db, req: CreateURLRequest, codes: seq<string>, f: Faults, now: int, length: int)
    requires |codes| >= Attempts
    requires forall i :: 0 <= i < Attempts ==> Shortcode.WellFormed(codes[i], length)
    requires ValidRequest(req)
    requires Create(cfg, db, req, codes, f, now).result.Ok?
    ensures var code := Allocate(db.store, req, codes, f.checkFails).value;
      (req.customCode == "" ==> Shortcode.WellFormed(code, length)) &&
      (forall k :: 0 <= k < |code| ==> Shortcode.IsAlphanumeric(code[k]))
  {
    CreateEffects(cfg, db, req, codes, f, now);
    var code := Allocate(db.store, req, codes, f.checkFails).value;
    if req.customCode == "" {
      RetryOutcome(db.store, codes, f.checkFails, 0);
      forall k | 0 <= k < |code| ensures Shortcode.IsAlphanumeric(code[k]) {
        Shortcode.CharsAlphanumeric(code[k]);
      }
    }
  }

  // ---------------------------------------------------------------------------
  // Resolution

  /**
   * The cache is asked first. Its failure is returned without asking the
   * store; a hit returns the cached target without asking the store and
   * changes nothing.
   */
  lemma ResolveCacheFirst(db: Db, store': Repo.Store, code: string, f: Faults, now: int)
    ensures f.cacheGetFails ==> Resolve(db, code, f, now) == Step(Err(CacheFailure), db)
    ensures !f.cacheGetFails && Cache.Visible(db.cache, code, now)
         ==> Resolve(db, code, f, now) == Step(Ok(db.cache[code].originalUrl), db)
    ensures f.cacheGetFails || Cache.Visible(db.cache, code, now)
         ==> Resolve(Db(store', db.cache), code, f, now).result == Resolve(db, code, f, now).result
  {
  }

  /**
   * On a clean miss the store decides. Its failure or a missing record is
   * returned with the cache untouched; a record found is written back into
   * the cache and its target returned, unless the write-back fails.
   */
  lemma ResolveMiss(db: Db, code: string, f: Faults, now: int)
    requires !f.cacheGetFails && !Cache.Visible(db.cache, code, now)
    ensures f.lookupFails ==> Resolve(db, code, f, now) == Step(Err(StoreFailure), db)
    ensures !f.lookupFails && code !in db.store ==> Resolve(db, code, f, now) == Step(Err(NotFound), db)
    ensures !f.lookupFails && code in db.store ==>
      var u := db.store[code];
      Resolve(db, code, f, now)
        == Step(if f.cacheSetFails then Err(CacheFailure) else Ok(u.originalUrl),
                Db(db.store, if f.cacheSetFails then db.cache else db.cache[u.shortCode := u]))
  {
  }

  /**
   * Round trip. After a successful creation, the code resolves to the
   * requested target: from the cache while the entry lives, touching
   * nothing; and from the store once the entry is evicted, writing it back.
   */
  lemma CreateThenResolve(cfg: Config, db: Db, req: CreateURLRequest, codes: seq<string>, f: Faults, now: int, t: int)
    requires |codes| >= Attempts
    requires Create(cfg, db, req, codes, f, now).result.Ok?
    ensures var s := Create(cfg, db, req, codes, f, now);
      var code := Allocate(db.store, req, codes, f.checkFails).value;
      var u := s.db.store[code];
      s.result.value.shortUrl == cfg.baseURL + "/" + code &&
      (t < u.expiredAt ==> Resolve(s.db, code, NoFaults, t) == Step(Ok(req.originalUrl), s.db)) &&
      Resolve(Db(s.db.store, s.db.cache - {code}), code, NoFaults, t)
        == Step(Ok(req.originalUrl), Db(s.db.store, s.db.cache))
  {
    CreateEffects(cfg, db, req, codes, f, now);
    var s := Create(cfg, db, req, codes, f, now);
    var code := Allocate(db.store, req, codes, f.checkFails).value;
    assert (s.db.cache - {code})[code := s.db.store[code]] == s.db.cache;
  }

  /**
   * Expiry. Once a purge has run at or after the record's expiry, the code
   * no longer resolves: the cache entry has timed out and the store answers
   * NotFound.
   */
  lemma PurgedThenNotFound(cfg: Config, db: Db, req: CreateURLRequest, codes: seq<string>, f: Faults, now: int, t: int, t': int)
    requires |codes| >= Attempts
    requires Create(cfg, db, req, codes, f, now).result.Ok?
    requires Create(cfg, db, req, codes, f, now).db.store[Allocate(db.store, req, codes, f.checkFails).value].expiredAt <= t <= t'
    ensures var s := Create(cfg, db, req, codes, f, now);
      var code := Allocate(db.store, req, codes, f.checkFails).value;
      Resolve(Purge(s.db, t, false).db, code, NoFaults, t') == Step(Err(NotFound), Purge(s.db, t, false).db)
  {
    CreateEffects(cfg, db, req, codes, f, now);
  }

  // ---------------------------------------------------------------------------
  // The purge

  /** A second purge at the same time removes nothing more. */
  lemma PurgeTwice(db: Db, now: int)
    ensures Purge(Purge(db, now, false).db, now, false) == Purge(db, now, false)
  {
    Repo.PurgeIdempotent(db.store, now);
  }

  // ---------------------------------------------------------------------------
  // Cache and store stay consistent

  /**
   * Every record is filed under its own code in both maps, and every cache
   * entry still served at `now` is the store's record for that code: a
   * cache hit never disagrees with the store.
   */
  ghost predicate Consistent(db: Db, now: int)
  {
    Repo.Keyed(db.store) &&
    (forall c :: c in db.cache ==> db.cache[c].shortCode == c) &&
    (forall c :: Cache.Visible(db.cache, c, now) ==> c in db.store && db.store[c] == db.cache[c])
  }

  /** Time passing keeps consistency: entries served later were served earlier. */
  lemma ClockAdvance(db: Db, now: int, later: int)
    requires Consistent(db, now) && now <= later
    ensures Consistent(db, later)
  {
  }

  lemma CreatePreservesConsistent(cfg: Config, db: Db, req: CreateURLRequest, codes: seq<string>, f: Faults, now: int)
    requires |codes| >= Attempts
    requires Consistent(db, now)
    ensures Consistent(Create(cfg, db, req, codes, f, now).db, now)
  {
    CreateEffects(cfg, db, req, codes, f, now);
    var code := Allocate(db.store, req, codes, f.checkFails);
    if code.Ok? {
      // A stale cache entry for a code missing from the store is not served at `now`.
      assert !Cache.Visible(db.cache, code.value, now);
    }
  }

  lemma ResolvePreservesConsistent(db: Db, code: string, f: Faults, now: int)
    requires Consistent(db, now)
    ensures Resolve(db, code, f, now).db.store == db.store
    ensures Consistent(Resolve(db, code, f, now).db, now)
  {
  }

  lemma PurgePreservesConsistent(db: Db, now: int, fail: bool)
    requires Consistent(db, now)
    ensures Consistent(Purge(db, now, fail).db, now)
  {
  }

  /** With consistency, whatever a resolution returns is the target the store holds for the code. */
  lemma ResolveNeverStale(db: Db, code: string, f: Faults, now: int)
    requires Consistent(db, now)
    requires Resolve(db, code, f, now).result.Ok?
    ensures code in db.store && Resolve(db, code, f, now).result.value == db.store[code].originalUrl
  {
  }
}
