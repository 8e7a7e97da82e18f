/** Properties of several `service` calls in a row on one store: what a
    call leaves for the next one, invariants of the on-disk state kept by
    any sequence of calls, and a worked scenario. */
module Runs {
  import opened Documents
  import opened Policy

  /** One `service` call: its key and what the world answers during it. */
  datatype Call<P> = Call(key: CacheKey, env: Env<P>)

  /** The store after the calls, one after the other. */
  function Run<P>(c: Config, s: Store<P>, calls: seq<Call<P>>): (t: Store<P>)
    decreases |calls|
  {
    if |calls| == 0 then s
    else Run(c, ServiceSpec(c, s, calls[0].key, calls[0].env).store, calls[1..])
  }

  /** Every document and lock marker lies in an existing group directory. */
  ghost predicate Nested<P>(s: Store<P>)
  {
    && (forall k | k in s.docs :: k.group in s.dirs)
    && (forall k | k in s.locks :: k.group in s.dirs)
  }

  /** `pending` is a view computed when reading, never a stored status. */
  ghost predicate NoStoredPending<P>(s: Store<P>)
  {
    forall k | k in s.docs :: s.docs[k].status != Pending
  }

  /** The lock markers in `after` are markers of `before`, unchanged:
      calls whose fetch returns only delete markers, and none of their own
      survives them. */
  ghost predicate LocksOnlyRemoved(before: map<CacheKey, int>, after: map<CacheKey, int>)
  {
    forall k | k in after :: k in before && after[k] == before[k]
  }

  /** One call whose fetch returns keeps the invariants, only deletes lock
      markers, and never deletes a document or a directory. */
  lemma ServiceKeepsInvariants<P>(c: Config, s: Store<P>, k: CacheKey, e: Env<P>)
    requires Nested(s) && NoStoredPending(s)
    ensures var t := ServiceSpec(c, s, k, e).store;
      && Nested(t) && NoStoredPending(t)
      && LocksOnlyRemoved(s.locks, t.locks)
      && s.docs.Keys <= t.docs.Keys && s.dirs <= t.dirs
  {
  }

  /** Any sequence of calls whose fetches return keeps the invariants,
      leaves no lock marker of its own behind, and never deletes a document
      or a directory. */
  lemma {:induction false} RunKeepsInvariants<P>(c: Config, s: Store<P>, calls: seq<Call<P>>)
    requires Nested(s) && NoStoredPending(s)
    ensures var t := Run(c, s, calls);
      && Nested(t) && NoStoredPending(t)
      && LocksOnlyRemoved(s.locks, t.locks)
      && s.docs.Keys <= t.docs.Keys && s.dirs <= t.dirs
    decreases |calls|
  {
    if |calls| > 0 {
      var s1 := ServiceSpec(c, s, calls[0].key, calls[0].env).store;
      ServiceKeepsInvariants(c, s, calls[0].key, calls[0].env);
      RunKeepsInvariants(c, s1, calls[1..]);
    }
  }

  /** After a successful recompute at `e1.now`, a call up to `update`
      seconds later serves the same document and does not fetch, whatever
      the fetch would now return. */
  lemma FreshAfterRecompute<P>(c: Config, s: Store<P>, k: CacheKey, e1: Env<P>, e2: Env<P>)
    requires ServiceSpec(c, s, k, e1).fetched && FetchSucceeds(e1.fetch, e1.encodeOk)
    requires e2.now <= e1.now + c.update
    ensures var r1 := ServiceSpec(c, s, k, e1);
      var r2 := ServiceSpec(c, r1.store, k, e2);
      && r2.reply == r1.reply && !r2.fetched && r2.store.docs == r1.store.docs
  {
  }

  /** A fallback rolls `updated` back by half an interval, so the next call
      fetches again as soon as more than half an interval has passed since
      the failed one, instead of a whole interval. */
  lemma FallbackRetriesSooner<P>(c: Config, s: Store<P>, k: CacheKey, e1: Env<P>, e2: Env<P>)
    requires ConfigOk(c)
    requires ServiceSpec(c, s, k, e1).fetched && !FetchSucceeds(e1.fetch, e1.encodeOk) && k in s.docs
    ensures var r1 := ServiceSpec(c, s, k, e1);
      ServiceSpec(c, r1.store, k, e2).fetched <==> e2.now as real > e1.now as real + HalfInterval(c.update)
  {
  }

  /** The scenario "weather/paris" with an update interval of 10 seconds:
      computed at 0, served from the cache at 5, served as `old` with
      `updated` 6 after a failed fetch at 11, recomputed only after 16. */
  lemma WeatherScenario<P>(temp: P, f5: FetchOutcome<P>, f4: FetchOutcome<P>, t4: int)
    ensures
      var c := Config(true, 10, HalfInterval(10));
      var k := CacheKey("weather", "paris");
      var r0 := ServiceSpec(c, Store(map[], map[], {}), k, Env(true, Payload(temp), true, 0));
      var r5 := ServiceSpec(c, r0.store, k, Env(true, f5, true, 5));
      var r11 := ServiceSpec(c, r5.store, k, Env(true, Null, true, 11));
      var r4 := ServiceSpec(c, r11.store, k, Env(true, f4, true, t4));
      && r0.reply == Document(Doc(temp, Last, Some(0.0), 0))
      && r5.reply == r0.reply && !r5.fetched
      && r11.reply == Document(Doc(temp, Old, Some(6.0), 0))
      && (r4.fetched <==> t4 > 16)
  {
  }
}
