/** Values that the cache keeps on disk and hands back to its callers:
    the cached document, the result of one fetch, and the reply of a call. */
module Documents {

  datatype Option<+T> = None | Some(value: T)

  /** Freshness state of a document: `last` freshly computed, `pending`
      another computation is in flight, `old` served past its freshness
      window after a failed fetch. */
  datatype Status = Last | Pending | Old

  /** One cached document `<group>/<param>.json`. The payload is opaque.
      `updated` starts the freshness window; a document written by an older
      edition may lack it. It is a real number because the fallback subtracts
      half of the update interval, which is fractional for an odd interval.
      `date` is when the payload was produced. */
  datatype Doc<P> = Doc(data: P, status: Status, updated: Option<real>, date: int)

  /** Identifies a document and its lock: the group directory and the parameter. */
  datatype CacheKey = CacheKey(group: string, param: string)

  /** What the group's fetch operation returned: nothing, a structured
      receiver error (message and code), or a payload. */
  datatype FetchOutcome<P> = Null | Err(message: string, code: int) | Payload(payload: P)

  /** What `service` returns: a document, or an array of the shape
      `{type: error, message, code}`. */
  datatype Reply<P> = Document(doc: Doc<P>) | Error(message: string, code: int)

  /** What `get` returns for a stored document: all of it, or its data only. */
  datatype Lookup<P> = Meta(doc: Doc<P>) | Data(data: P)

  const CacheDirectoryProblem: string := "Cache directory problem"
  const CacheCreateProblem: string := "Impossible to create cache"
  const ResourceGetFailure: string := "Resource get failure"
  const ServerErrorCode: int := 500
}
