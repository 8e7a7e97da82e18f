/** The `Formalizer` base class: configuration fields, the lock test, the
    stale fallback, the `service` state machine and the `get` accessor.
    The filesystem under the cache root is held in three fields (documents,
    lock markers, group directories) that the methods update in place. */
module Base {
  import opened Documents
  import opened Policy

  class Formalizer<P> {
    var cachingOk: bool
    var update: int
    var locktimeup: real
    var docs: map<CacheKey, Doc<P>>
    var locks: map<CacheKey, int>
    var dirs: set<string>
    /** How many times a fetch operation has been invoked. */
    ghost var fetchCount: nat

    /** The lock timeout stays half of the update interval. */
    ghost predicate Valid()
      reads this`cachingOk, this`update, this`locktimeup
    {
      ConfigOk(Config(cachingOk, update, locktimeup))
    }

    /** Caching is available exactly when the cache root is a directory;
        the instance starts on the store it finds. */
    constructor (rootIsDir: bool, update: int,
                 docs: map<CacheKey, Doc<P>>, locks: map<CacheKey, int>, dirs: set<string>)
      ensures Valid()
      ensures cachingOk == rootIsDir && this.update == update
      ensures this.docs == docs && this.locks == locks && this.dirs == dirs
      ensures fetchCount == 0
    {
      cachingOk := false;
      this.docs, this.locks, this.dirs := docs, locks, dirs;
      fetchCount := 0;
      new;
      if rootIsDir {
        cachingOk := true;
      }
      SetUpdate(update);
    }

    /** Changes the update interval and recomputes the lock timeout. */
    method SetUpdate(u: int)
      modifies this`update, this`locktimeup
      ensures Valid()
      ensures update == u && locktimeup == u as real / 2.0
    {
      update := u;
      locktimeup := update as real / 2.0;
    }

    /** Whether another call holds a live lock on `k`; an expired lock is deleted. */
    method TestPending(k: CacheKey, now: int) returns (pending: bool)
      modifies this`locks
      ensures k !in old(locks) ==> !pending && locks == old(locks)
      ensures k in old(locks) && now as real <= old(locks)[k] as real + locktimeup ==>
        pending && locks == old(locks)
      ensures k in old(locks) && now as real > old(locks)[k] as real + locktimeup ==>
        !pending && locks == old(locks) - {k}
      ensures pending == LockLive(old(locks), k, now, locktimeup)
      ensures locks == AfterLockTest(old(locks), k, now, locktimeup)
    {
      if k in locks {
        var lockTimeMax := locks[k] as real + locktimeup;
        if now as real > lockTimeMax {
          locks := locks - {k};
        } else {
          return true;
        }
      }
      return false;
    }

    /** On a failed fetch, serves the existing document as `old` (rewriting
        it half an interval in the past), or the error when there is none. */
    method TreatAsError(k: CacheKey, message: string, code: int, now: int) returns (json: Reply<P>)
      modifies this`docs
      ensures k in old(docs) ==>
        && json == Document(old(docs)[k].(status := Old, updated := Some(now as real - locktimeup)))
        && docs == old(docs)[k := json.doc]
      ensures k !in old(docs) ==> json == Error(message, code) && docs == old(docs)
      ensures (json, docs) == Fallback(old(docs), k, Error(message, code), now, locktimeup)
    {
      if k in docs {
        json := Document(docs[k].(status := Old, updated := Some(now as real - locktimeup)));
        docs := docs[k := json.doc];
      } else {
        json := Error(message, code);
      }
    }

    /** The recompute: writes the lock, invokes the fetch, stores the fresh
        document or falls back, then removes the lock. */
    method Recreate(k: CacheKey, fetch: FetchOutcome<P>, encodeOk: bool, now: int) returns (json: Reply<P>)
      modifies this`docs, this`locks, this`fetchCount
      ensures (json, docs) == Recompute(old(docs), k, fetch, encodeOk, now, locktimeup)
      ensures locks == old(locks) - {k}
      ensures fetchCount == old(fetchCount) + 1
    {
      locks := locks[k := now];
      fetchCount := fetchCount + 1;
      match fetch {
        case Null =>
          json := TreatAsError(k, ResourceGetFailure, ServerErrorCode, now);
        case Err(message, code) =>
          json := TreatAsError(k, message, code, now);
        case Payload(p) =>
          var d := FreshDoc(p, now);
          if encodeOk {
            docs := docs[k := d];
            json := Document(d);
          } else {
            json := TreatAsError(k, ResourceGetFailure, ServerErrorCode, now);
          }
      }
      locks := locks - {k};
      assert locks == old(locks) - {k};
    }

    /** Fetch-or-serve for parameter `param` of group `name`. The world is
        passed in: `mkdirOk` is what `mkdir` returns, `fetch` what the group's
        fetch returns, `encodeOk` whether its encoding is non-empty, `now`
        the time. */
    method Service(name: string, param: string, mkdirOk: bool, fetch: FetchOutcome<P>, encodeOk: bool, now: int)
      returns (json: Reply<P>)
      modifies this`docs, this`locks, this`dirs, this`fetchCount
      ensures var r := ServiceSpec(Config(cachingOk, update, locktimeup), Store(old(docs), old(locks), old(dirs)),
                                   CacheKey(name, param), Env(mkdirOk, fetch, encodeOk, now));
        && json == r.reply
        && docs == r.store.docs && locks == r.store.locks && dirs == r.store.dirs
        && fetchCount == old(fetchCount) + (if r.fetched then 1 else 0)
    {
      if !cachingOk {
        return Error(CacheDirectoryProblem, ServerErrorCode);
      }
      if name !in dirs {
        if !mkdirOk {
          return Error(CacheCreateProblem, ServerErrorCode);
        }
        dirs := dirs + {name};
      }
      var k := CacheKey(name, param);
      var recreate := false;
      var pending := TestPending(k, now);
      if k in docs {
        json := Document(docs[k]);
        if pending {
          json := Document(json.doc.(status := Pending));
        } else if json.doc.updated.Some? {
          var updateTimeMax := json.doc.updated.value + update as real;
          if now as real > updateTimeMax {
            recreate := true;
          }
        } else {
          recreate := true;
        }
      } else {
        recreate := true;
      }
      if recreate {
        if pending && k in docs {
          // a document under a live lock never sets `recreate`
          assert false;
        } else {
          json := Recreate(k, fetch, encodeOk, now);
        }
      }
    }

    /** The stored document for `param` of group `name`: all of it when
        `meta` is set, its data otherwise, nothing when there is none.
        Reads only the documents, never the locks. */
    function Get(name: string, param: string, meta: bool := false): (r: Option<Lookup<P>>)
      reads this`docs
      ensures r.None? <==> CacheKey(name, param) !in docs
      ensures r.Some? && meta ==> r.value.Meta? && r.value.doc == docs[CacheKey(name, param)]
      ensures r.Some? && !meta ==> r.value.Data? && r.value.data == docs[CacheKey(name, param)].data
    {
      var k := CacheKey(name, param);
      if k !in docs then None
      else if meta then Some(Meta(docs[k]))
      else Some(Data(docs[k].data))
    }
  }
}
