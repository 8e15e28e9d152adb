/**
 * The backing store as the edge functions see it through the query builder:
 * errors carry a PostgREST code and message, `.single()` demands exactly one
 * row, `.maybeSingle()` at most one, and any query can fail on the store side.
 */
module Store {
  import opened Wrappers

  datatype DbError = DbError(code: string, message: string)

  /** PostgREST's code when `.single()` finds zero or several rows. */
  const NotSingleCode := "PGRST116"
  const NotSingleMessage := "JSON object requested, multiple (or no) rows returned"
  const NotSingle := DbError(NotSingleCode, NotSingleMessage)

  /**
   * Store-side failures a request runs into: `first` is the error the first
   * query the handler issues reports, `second` that of the second query.
   */
  datatype Faults = Faults(first: Option<DbError>, second: Option<DbError>)

  /** A store-side failure that carries the not-single code itself, so it reads like "no row". */
  predicate InjectedNotSingle(fault: Option<DbError>) {
    fault.Some? && fault.value.code == NotSingleCode
  }

  /** `.single()` over the rows a query matched. */
  function Single<R>(fault: Option<DbError>, matched: seq<R>): (r: Result<R, DbError>)
    ensures r.Success? <==> fault.None? && |matched| == 1
    ensures r.Success? ==> r.value == matched[0]
    ensures fault.Some? ==> r == Failure(fault.value)
    ensures fault.None? && |matched| != 1 ==> r == Failure(NotSingle)
  {
    if fault.Some? then Failure(fault.value)
    else if |matched| == 1 then Success(matched[0])
    else Failure(NotSingle)
  }

  /** `.maybeSingle()`: no row is `null`, several rows are an error. */
  function MaybeSingle<R>(fault: Option<DbError>, matched: seq<R>): (r: Result<Option<R>, DbError>)
    ensures r.Success? <==> fault.None? && |matched| <= 1
    ensures r.Success? ==> (r.value.None? <==> matched == []) && (r.value.Some? ==> r.value.value == matched[0])
    ensures fault.Some? ==> r == Failure(fault.value)
    ensures fault.None? && |matched| > 1 ==> r == Failure(NotSingle)
  {
    if fault.Some? then Failure(fault.value)
    else if matched == [] then Success(None)
    else if |matched| == 1 then Success(Some(matched[0]))
    else Failure(NotSingle)
  }
}
