/** Reference definitions of the cache policy as functions of the on-disk
    state: the lock-expiry rule, the freshness test, the stale fallback and
    one whole `service` call. The class in module Base is proved to agree
    with them. */
module Policy {
  import opened Documents

  /** The instance's configuration: whether the cache root is a directory,
      the update interval and the lock timeout. */
  datatype Config = Config(cachingOk: bool, update: int, locktimeup: real)

  /** The part of the filesystem the cache sees: documents, lock markers
      (each holding its creation time) and the group directories. */
  datatype Store<P> = Store(docs: map<CacheKey, Doc<P>>, locks: map<CacheKey, int>, dirs: set<string>)

  /** What the world answers during one call: whether `mkdir` succeeds,
      what the fetch returns, whether its encoding is non-empty, the time. */
  datatype Env<P> = Env(mkdirOk: bool, fetch: FetchOutcome<P>, encodeOk: bool, now: int)

  /** The effect of one call: the reply, the new store, and whether the
      fetch was invoked. */
  datatype Step<P> = Step(reply: Reply<P>, store: Store<P>, fetched: bool)

  /** The lock timeout is half of the update interval. PHP's `/` gives an
      integer for an even interval and a float with a half for an odd one;
      the real quotient has the same value in both cases. */
  function HalfInterval(update: int): (r: real)
    ensures r + r == update as real
  {
    update as real / 2.0
  }

  /** The configuration keeps the lock timeout at half the update interval. */
  predicate ConfigOk(c: Config)
  {
    c.locktimeup == HalfInterval(c.update)
  }

  /** A lock marker is live until its creation time plus the timeout has passed. */
  predicate LockLive(locks: map<CacheKey, int>, k: CacheKey, now: int, locktimeup: real)
  {
    k in locks && now as real <= locks[k] as real + locktimeup
  }

  /** The lock markers after the lock test: an expired marker is deleted. */
  function AfterLockTest(locks: map<CacheKey, int>, k: CacheKey, now: int, locktimeup: real): (r: map<CacheKey, int>)
    ensures LockLive(locks, k, now, locktimeup) <==> k in r
    ensures r - {k} == locks - {k}
    ensures k in r ==> r[k] == locks[k]
  {
    if k in locks && !LockLive(locks, k, now, locktimeup) then locks - {k} else locks
  }

  /** A document is fresh while `updated` is set and the update interval
      has not yet passed since it. */
  predicate Fresh<P>(d: Doc<P>, now: int, update: int)
  {
    d.updated.Some? && now as real <= d.updated.value + update as real
  }

  /** The stale fallback: an existing document is rewritten as `old`, half
      an interval in the past; without one, the error is the reply and
      nothing is written. */
  function Fallback<P>(docs: map<CacheKey, Doc<P>>, k: CacheKey, error: Reply<P>, now: int, locktimeup: real)
    : (r: (Reply<P>, map<CacheKey, Doc<P>>))
    ensures k in docs ==>
      && r.0.Document?
      && r.0.doc.status == Old
      && r.0.doc.updated == Some(now as real - locktimeup)
      && r.0.doc.data == docs[k].data
      && r.0.doc.date == docs[k].date
      && r.1 == docs[k := r.0.doc]
    ensures k !in docs ==> r.0 == error && r.1 == docs
  {
    if k in docs then
      var d := docs[k].(status := Old, updated := Some(now as real - locktimeup));
      (Document(d), docs[k := d])
    else
      (error, docs)
  }

  /** A fetch fails when it returns nothing, a receiver error, or a payload
      whose encoding is empty. */
  predicate FetchSucceeds<P>(fetch: FetchOutcome<P>, encodeOk: bool)
  {
    fetch.Payload? && encodeOk
  }

  /** The error a failed fetch reports when there is nothing to fall back to. */
  function FailureReply<P>(fetch: FetchOutcome<P>): (r: Reply<P>)
    ensures r.Error?
    ensures fetch.Err? ==> r.message == fetch.message && r.code == fetch.code
    ensures !fetch.Err? ==> r.message == ResourceGetFailure && r.code == ServerErrorCode
  {
    if fetch.Err? then Error(fetch.message, fetch.code) else Error(ResourceGetFailure, ServerErrorCode)
  }

  /** The document a successful fetch produces at time `now`. */
  function FreshDoc<P>(p: P, now: int): (d: Doc<P>)
  {
    Doc(p, Last, Some(now as real), now)
  }

  /** The documents and the reply after the fetch has returned. */
  function Recompute<P>(docs: map<CacheKey, Doc<P>>, k: CacheKey, fetch: FetchOutcome<P>, encodeOk: bool,
                        now: int, locktimeup: real): (r: (Reply<P>, map<CacheKey, Doc<P>>))
    ensures FetchSucceeds(fetch, encodeOk) ==>
      r.0 == Document(FreshDoc(fetch.payload, now)) && r.1 == docs[k := FreshDoc(fetch.payload, now)]
    ensures !FetchSucceeds(fetch, encodeOk) ==> r == Fallback(docs, k, FailureReply(fetch), now, locktimeup)
    ensures r.1 - {k} == docs - {k}
  {
    if FetchSucceeds(fetch, encodeOk) then
      var d := FreshDoc(fetch.payload, now);
      (Document(d), docs[k := d])
    else
      Fallback(docs, k, FailureReply(fetch), now, locktimeup)
  }

  /** The call gets past the two early returns: caching is available and
      the group directory exists or can be created. */
  predicate Proceeds<P>(c: Config, s: Store<P>, k: CacheKey, e: Env<P>)
  {
    c.cachingOk && (k.group in s.dirs || e.mkdirOk)
  }

  /** One `service` call for key `k`, defined by cases on the state it finds. */
  function ServiceSpec<P>(c: Config, s: Store<P>, k: CacheKey, e: Env<P>): (r: Step<P>)
  {
    if !c.cachingOk then
      Step(Error(CacheDirectoryProblem, ServerErrorCode), s, false)
    else if k.group !in s.dirs && !e.mkdirOk then
      Step(Error(CacheCreateProblem, ServerErrorCode), s, false)
    else
      var dirs := s.dirs + {k.group};
      var locks := AfterLockTest(s.locks, k, e.now, c.locktimeup);
      if k in s.docs && LockLive(s.locks, k, e.now, c.locktimeup) then
        Step(Document(s.docs[k].(status := Pending)), Store(s.docs, locks, dirs), false)
      else if k in s.docs && Fresh(s.docs[k], e.now, c.update) then
        Step(Document(s.docs[k]), Store(s.docs, locks, dirs), false)
      else
        var (reply, docs) := Recompute(s.docs, k, e.fetch, e.encodeOk, e.now, c.locktimeup);
        Step(reply, Store(docs, locks - {k}, dirs), true)
  }

  /** The two early returns leave the store as it was and do not fetch. */
  lemma EarlyReturns<P>(c: Config, s: Store<P>, k: CacheKey, e: Env<P>)
    ensures !c.cachingOk ==>
      ServiceSpec(c, s, k, e) == Step(Error(CacheDirectoryProblem, ServerErrorCode), s, false)
    ensures c.cachingOk && k.group !in s.dirs && !e.mkdirOk ==>
      ServiceSpec(c, s, k, e) == Step(Error(CacheCreateProblem, ServerErrorCode), s, false)
    ensures Proceeds(c, s, k, e) ==> ServiceSpec(c, s, k, e).store.dirs == s.dirs + {k.group}
  {
  }

  /** A document under a live lock is reported `pending`; the stored
      document and the lock stay as they were and nothing is fetched. */
  lemma PendingView<P>(c: Config, s: Store<P>, k: CacheKey, e: Env<P>)
    requires Proceeds(c, s, k, e) && k in s.docs && LockLive(s.locks, k, e.now, c.locktimeup)
    ensures var r := ServiceSpec(c, s, k, e);
      && r.reply == Document(s.docs[k].(status := Pending))
      && r.store.docs == s.docs && r.store.locks == s.locks && !r.fetched
  {
  }

  /** A document with `updated` set, no live lock and `now` at most
      `updated + update` (the boundary included) is served as stored. */
  lemma CacheHit<P>(c: Config, s: Store<P>, k: CacheKey, e: Env<P>)
    requires Proceeds(c, s, k, e) && k in s.docs && !LockLive(s.locks, k, e.now, c.locktimeup)
    requires s.docs[k].updated.Some? && e.now as real <= s.docs[k].updated.value + c.update as real
    ensures var r := ServiceSpec(c, s, k, e);
      && r.reply == Document(s.docs[k])
      && r.store.docs == s.docs && r.store.locks == s.locks - {k} && !r.fetched
      && r.store.dirs == s.dirs + {k.group}
  {
  }

  /** The fetch runs exactly when the call proceeds and the document is
      missing (whatever the lock), or there is no live lock and `updated`
      is missing or has been passed by more than the update interval. */
  lemma FetchExactlyWhenStale<P>(c: Config, s: Store<P>, k: CacheKey, e: Env<P>)
    ensures ServiceSpec(c, s, k, e).fetched <==>
      && Proceeds(c, s, k, e)
      && (|| k !in s.docs
          || (&& !LockLive(s.locks, k, e.now, c.locktimeup)
              && (s.docs[k].updated.None? || e.now as real > s.docs[k].updated.value + c.update as real)))
  {
  }

  /** What a recompute leaves behind: no lock for the key; on success the
      fresh document; on failure the stale fallback or, without a prior
      document, the error and no new document. */
  lemma RecomputeOutcome<P>(c: Config, s: Store<P>, k: CacheKey, e: Env<P>)
    requires ServiceSpec(c, s, k, e).fetched
    ensures var r := ServiceSpec(c, s, k, e);
      && k !in r.store.locks
      && (FetchSucceeds(e.fetch, e.encodeOk) ==>
            r.reply == Document(FreshDoc(e.fetch.payload, e.now))
            && r.store.docs == s.docs[k := FreshDoc(e.fetch.payload, e.now)])
      && (!FetchSucceeds(e.fetch, e.encodeOk) && k in s.docs ==>
            && r.reply == Document(s.docs[k].(status := Old, updated := Some(e.now as real - c.locktimeup)))
            && r.store.docs == s.docs[k := r.reply.doc])
      && (!FetchSucceeds(e.fetch, e.encodeOk) && k !in s.docs ==>
            r.reply == FailureReply(e.fetch) && r.store.docs == s.docs)
  {
  }

  /** Documents are written only by a recompute, and no other key's
      document or lock is touched. */
  lemma OnlyKeyTouched<P>(c: Config, s: Store<P>, k: CacheKey, e: Env<P>)
    ensures var r := ServiceSpec(c, s, k, e);
      && (!r.fetched ==> r.store.docs == s.docs)
      && r.store.docs - {k} == s.docs - {k}
      && r.store.locks - {k} == s.locks - {k}
  {
  }

  /** Lines 164-168 of the source are dead: when the document exists under
      a live lock the call never reaches the recompute branch, so a live
      lock can only coexist with a recompute when there is no document, and
      then it does not stop the recompute and is removed with it. */
  lemma LiveLockWithoutDocRecomputes<P>(c: Config, s: Store<P>, k: CacheKey, e: Env<P>)
    requires Proceeds(c, s, k, e)
    requires k !in s.docs && LockLive(s.locks, k, e.now, c.locktimeup)
    ensures ServiceSpec(c, s, k, e).fetched
    ensures k !in ServiceSpec(c, s, k, e).store.locks
  {
  }

  /** Whatever the call returns as a non-pending document is exactly what is
      stored afterwards, so `get` with metadata sees the reply; a pending
      reply is the stored document with only its status overridden. */
  lemma ReplyIsStored<P>(c: Config, s: Store<P>, k: CacheKey, e: Env<P>)
    requires Proceeds(c, s, k, e)
    ensures var r := ServiceSpec(c, s, k, e);
      && (r.reply.Document? && r.reply.doc.status != Pending ==> k in r.store.docs && r.store.docs[k] == r.reply.doc)
      && (r.reply.Document? && r.reply.doc.status == Pending ==>
            k in r.store.docs && r.reply.doc == r.store.docs[k].(status := Pending))
      && (r.reply.Error? ==> k !in r.store.docs)
  {
  }

  /** A call whose fetch never returns (an exception escaping the fetch, or
      the script dying) leaves the lock marker it wrote at `t`. A later call
      on an existing document sees that marker as live while
      `now <= t + locktimeup` and replies `pending`; once that time has
      passed it deletes the marker and decides as if there were none. */
  lemma AbandonedLockExpires<P>(c: Config, s: Store<P>, k: CacheKey, t: int, e: Env<P>)
    requires Proceeds(c, s, k, e) && k in s.docs
    ensures var a := s.(locks := s.locks[k := t]);
      var r := ServiceSpec(c, a, k, e);
      && (e.now as real <= t as real + c.locktimeup ==>
            r.reply == Document(s.docs[k].(status := Pending)) && !r.fetched && r.store.locks == a.locks)
      && (e.now as real > t as real + c.locktimeup ==>
            && k !in r.store.locks
            && r == ServiceSpec(c, s.(locks := s.locks - {k}), k, e))
  {
  }
}
