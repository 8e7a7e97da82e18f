# Gnkam Base: the fetch-or-serve cache of `Formalizer`

`Formalizer` is the base class of Gnkam services. Each resource group
`name` has a fetch operation `nameData`. A subclass calls `service(name,
param)`, which does one of three things. It serves the cached document
`<cache>/<name>/<param>.json` while it is fresh. It reports that document
as `pending` while another call holds a live lock `<param>.json.lock`.
Otherwise it recomputes: it writes the lock, calls the fetch, stores the
new document and removes the lock. When the fetch fails, it falls back to
the old document, marked `old` and rolled back half an update interval.
If there is no old document, it returns an error. `get` reads a cached
document without looking at locks or freshness.

This project models that class in Dafny:

- `documents.dfy` (module `Documents`) defines the values. A cached
  document is `Doc(data, status, updated, date)`. A fetch outcome is
  `Null`, `Err(message, code)` (the source's `ReceiverError`) or
  `Payload(p)`. The reply of `service` is a document or an
  `{type: error, message, code}` array. Module `Documents` also holds
  the error messages and the code 500.
- `policy.dfy` (module `Policy`) holds reference definitions over an
  abstract store. The store has documents by key, lock markers holding
  their creation time, and group directories. The definitions cover the
  lock rule (`LockLive`, `AfterLockTest`), freshness (`Fresh`), the stale
  fallback (`Fallback`) and the recompute (`Recompute`). `ServiceSpec`
  gives one whole `service` call by cases. Lemmas state each case's
  outcome, e.g. that a fetch happens exactly when the document is stale
  or missing.
- `formalizer.dfy` (module `Base`) holds class `Formalizer`. Its fields
  are `cachingOk`, `update` and `locktimeup`. The filesystem is three
  more fields: `docs`, `locks` and `dirs`. A ghost counter `fetchCount`
  counts fetch calls. `TestPending`, `TreatAsError` and `Service` update
  these fields step by step, in the order the source does. Their
  postconditions tie the new fields to the `Policy` definitions. The
  dead branch of lines 164-168 holds an `assert false` that Dafny proves.
  `Recreate` is lines 171-231 of `service` (write lock, fetch, store or
  fall back, remove lock), pulled out as a method of its own. `Get` is a
  function that reads only `docs`.
- `runs.dfy` (module `Runs`) covers several calls in a row. It proves
  these store invariants, kept by any sequence of calls whose fetch
  returns:
  - every file lies in an existing group directory;
  - `pending` is never stored;
  - such calls only delete lock markers;
  - documents and directories are never deleted.

  It also shows how the fallback shortens the time to the next retry,
  and works through the 10-second "weather/paris" scenario.

The environment is passed in as parameters:

- `now` stands for `time()`;
- `rootIsDir` stands for `is_dir($cache)` in the constructor;
- `mkdirOk` stands for the result of `mkdir`;
- `fetch` stands for what `call_user_func_array` returns;
- `encodeOk` stands for the result of the `!empty(json_encode(...))` test.

The lock timeout is `update / 2`. PHP gives an integer when the interval
is even and a float ending in `.5` when it is odd. The model keeps
`locktimeup` and a document's `updated` as `real`, which has the same
value in both cases, so integer division is not needed.
`Base.Formalizer.Valid()` is `Policy.ConfigOk` of the instance's own
configuration, so results stated for a configuration with `ConfigOk`
apply to every instance built by the constructor or `SetUpdate`.

## Model

| member | source | states |
|---|---|---|
| `Policy.HalfInterval` | src/Gnkam/Base/Formalizer.php:73-77 | The lock timeout is exactly half of the update interval: twice it is the interval. |
| `Policy.AfterLockTest` | src/Gnkam/Base/Formalizer.php:261-277 | After the lock test the key keeps a marker exactly when the marker was live (`now <= createdAt + locktimeup`). The kept marker is unchanged and other keys' markers are untouched. |
| `Policy.Fallback` | src/Gnkam/Base/Formalizer.php:237-255 | With a prior document, the reply and the stored document are that document with status `old` and `updated = now - locktimeup`, `data` and `date` unchanged, and only that key is rewritten. Without a prior document, the reply is the error and the documents are unchanged. |
| `Policy.FailureReply` | src/Gnkam/Base/Formalizer.php:178-196 | A `ReceiverError` reply carries its message and code. A null result (or an empty encoding) gives "Resource get failure" with code 500. |
| `Policy.Recompute` | src/Gnkam/Base/Formalizer.php:178-229 | A payload that encodes gives the reply and stored document `data=payload, status=last, updated=now, date=now`. Every other outcome is the stale fallback with the failure's error. Other keys' documents are untouched. |
| `Policy.EarlyReturns` | src/Gnkam/Base/Formalizer.php:97-119 | Without caching the reply is "Cache directory problem"/500. When the group directory is missing and `mkdir` fails, it is "Impossible to create cache"/500. In both cases the store is unchanged and nothing is fetched. Otherwise the group directory exists afterwards. |
| `Policy.PendingView` | src/Gnkam/Base/Formalizer.php:129-139 | A stored document under a live lock is returned with status `pending`. The stored document and the lock markers are unchanged and nothing is fetched. |
| `Policy.CacheHit` | src/Gnkam/Base/Formalizer.php:142-149 | Take a document with `updated` set, no live lock, and `now <= updated + update` (the boundary is still a hit). It is returned as stored and nothing is fetched. The documents are unchanged, the only lock change is the removal of an expired marker, and the group directory exists afterwards. |
| `Policy.FetchExactlyWhenStale` | src/Gnkam/Base/Formalizer.php:132-162 | The fetch is invoked, in both directions of the iff, exactly when the call gets past the early returns and one of these holds: the document is missing (whatever the lock), or there is no live lock and `updated` is missing or `now > updated + update`. |
| `Policy.RecomputeOutcome` | src/Gnkam/Base/Formalizer.php:171-231 | After any recompute the key has no lock marker. On success the fresh document is stored and returned. On failure with a prior document, that document is stored and returned as `old` with `updated = now - locktimeup`. On failure without a prior document, the error is returned and no document is created. |
| `Policy.OnlyKeyTouched` | src/Gnkam/Base/Formalizer.php:121-123 | A call changes only its own key's document and lock marker, and writes a document only when it recomputes. |
| `Policy.LiveLockWithoutDocRecomputes` | src/Gnkam/Base/Formalizer.php:156-172 | A live lock with no document does not stop a recompute, which is the consequence of the branch at lines 164-168 being unreachable. The fetch runs and the marker is gone afterwards. |
| `Policy.ReplyIsStored` | src/Gnkam/Base/Formalizer.php:133-234 | Once past the early returns, a non-pending document reply is exactly the stored document afterwards. A pending reply is the stored document with only its status overridden. An error reply means no document is stored for the key. |
| `Policy.AbandonedLockExpires` | src/Gnkam/Base/Formalizer.php:261-277 | Suppose a call wrote its marker at `t` and its fetch never returned. A later call on an existing document replies `pending` without fetching and keeps the marker while `now <= t + locktimeup`. After that it deletes the marker and behaves exactly as if there had been none. |
| `Base.Formalizer.constructor` | src/Gnkam/Base/Formalizer.php:59-67 | `cachingOk` is set exactly when the cache root is a directory. The update interval is set and the lock timeout is half of it. |
| `Base.Formalizer.SetUpdate` | src/Gnkam/Base/Formalizer.php:73-77 | Sets `update`, sets `locktimeup` to half of it, and keeps `Valid()`. |
| `Base.Formalizer.TestPending` | src/Gnkam/Base/Formalizer.php:261-277 | No marker gives false with nothing changed. A marker with `now <= createdAt + locktimeup` gives true and is kept. A marker past that time is deleted and the result is false. |
| `Base.Formalizer.TreatAsError` | src/Gnkam/Base/Formalizer.php:237-255 | Rewrites an existing document as `old` with `updated = now - locktimeup` and returns it. Without one it returns the error and writes nothing. It agrees with `Policy.Fallback`. |
| `Base.Formalizer.Recreate` | src/Gnkam/Base/Formalizer.php:171-231 | Reply and documents are those of `Policy.Recompute`. The key's lock marker is removed (whether or not another call held one), and the fetch is counted once. |
| `Base.Formalizer.Service` | src/Gnkam/Base/Formalizer.php:86-235 | The reply, new documents, lock markers and directories are those of `Policy.ServiceSpec` on the old state. The fetch counter grows by one exactly when `ServiceSpec` fetches. The branch at lines 164-168 is proved dead. |
| `Base.Formalizer.Get` | src/Gnkam/Base/Formalizer.php:286-300 | Returns nothing exactly when no document is stored. Otherwise it returns the whole document when `meta` is set and its `data` when not; `meta` defaults to false. Its frame is `docs` alone, so locks and freshness never affect it. |
| `Runs.ServiceKeepsInvariants` | src/Gnkam/Base/Formalizer.php:107-231 | One call whose fetch returns keeps every file inside an existing group directory and never stores `pending`. It only deletes lock markers and never deletes a document or a directory. |
| `Runs.RunKeepsInvariants` | src/Gnkam/Base/Formalizer.php:86-235 | Any sequence of calls keeps those invariants. When every fetch returns, no lock marker written by the calls survives them, and no document or directory is lost. |
| `Runs.FreshAfterRecompute` | src/Gnkam/Base/Formalizer.php:142-216 | After a successful recompute at `t`, a call up to `t + update` returns the same document without fetching, even when the fetch would now fail. |
| `Runs.FallbackRetriesSooner` | src/Gnkam/Base/Formalizer.php:240-247 | When the lock timeout is half the interval, a fallback at `t` makes the next call fetch exactly when `now > t + update/2`. |
| `Runs.WeatherScenario` | src/Gnkam/Base/Formalizer.php:86-255 | Interval 10: at time 0 the fetch gives `{data, last, 0, 0}`. At 5 the same document is served without a fetch. A failure at 11 gives `{data, old, 6, 0}`. A later call fetches exactly when it comes after 16. |

## Left out

- Filesystem access (`is_dir`, `mkdir`, `is_file`, `file_get_contents`, `file_put_contents`, `unlink`) is replaced by the fields `docs`, `locks` and `dirs`. Path strings, `rtrim` of the cache root and `getCacheLink` are not modelled; documents and locks are keyed by (group, parameter).
- The `name.'Data'` method lookup and the default `functionParams` are not modelled, because the fetch is reduced to its outcome, passed as a parameter.
- JSON encoding and decoding are not modelled. Stored documents are taken to decode, with `data`, `status` and `date` present; only a missing `updated` is modelled, because the source branches on it. The encoding of the rewritten fallback document (line 246) is taken to succeed.
- Extra JSON fields an old document may carry are not modelled. On a successful recompute the source overwrites the four modelled fields of the decoded old document, so such fields would survive there.
- Successive `time()` readings within one call are modelled as a single `now`. The source reads the clock several times, and a call that straddles a second boundary is not modelled.
- A fetch that throws or a script that dies during the fetch is not an outcome of `service` here: `FetchOutcome` always returns. In the source the exception escapes `service` (there is no `finally`), the marker written at line 172 is never removed at line 231, and later calls see `pending` until it expires; `Policy.AbandonedLockExpires` states what such a leftover marker does to the next call, and the invariants in `runs.dfy` hold only for calls whose fetch returns.
- The race between processes (the lock test and the lock creation are separate steps) is not modelled, because the model is sequential. For the same reason the branch of lines 164-168 is unreachable.
- `Base.Formalizer.Get`: with caching disabled the source builds its path from an unset root; the model still reads `docs`.
- `src/Gnkam/Base/ReceiverError.php` is only the `Err(message, code)` fetch outcome; its setters and getters hold no logic.
