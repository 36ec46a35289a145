/** The validate -> Save -> serialise -> cache Set pipeline each entity
    service runs, and the GetByID read path.  The collaborators' answers
    (what `Save`, `GetByID` and `Set` return) are inputs, and every run
    returns, besides the Go results, the trace of collaborator calls it
    made.  `json.Marshal` is deterministic and opaque, so a `Set` call
    records the record it serialised as its payload. */
module Orchestration {
  import opened Wrappers
  import opened Errors
  import opened Decimal

  /** The `...CacheKeyTypeID` constant of every service. */
  const CacheKeyTypeId: string := "ID"

  /** `10 * time.Minute` as a Go duration, in nanoseconds. */
  const CacheTtl: nat := 10 * 60 * 1_000_000_000

  /** `getCacheKey`: `fmt.Sprintf("%s.%s", cacheKeyType, value)`. */
  function CacheKey(cacheKeyType: string, value: string): (key: string)
    ensures |key| == |cacheKeyType| + 1 + |value|
    ensures key[..|cacheKeyType|] == cacheKeyType && key[|cacheKeyType|] == '.'
    ensures key[|cacheKeyType| + 1..] == value
  {
    cacheKeyType + "." + value
  }

  /** The key a record with identifier `id` is cached under. */
  function IdKey(id: Int64): string
  {
    CacheKey(CacheKeyTypeId, FormatInt(id))
  }

  /** Recovers the identifier from a cache key. */
  function ParseIdKey(key: string): Option<int>
  {
    if |key| >= 3 && key[..3] == "ID." then ParseInt(key[3..]) else None
  }

  lemma IdKeyRoundTrip(id: Int64)
    ensures ParseIdKey(IdKey(id)) == Some(id)
  {
    FormatParseRoundTrip(id);
  }

  /** Two records share a cache entry exactly when they share an identifier. */
  lemma IdKeyInjective(a: Int64, b: Int64)
    ensures IdKey(a) == IdKey(b) <==> a == b
  {
    IdKeyRoundTrip(a);
    IdKeyRoundTrip(b);
  }

  /** What a service does when the cache `Set` fails: return the error
      (and the zero record) or log it and carry on. */
  datatype CachePolicy = CacheFailureFatal | CacheFailureSwallowed

  /** Whose identifier `Create` puts in the cache key: the record `Save`
      returned or the record the caller passed in. */
  datatype KeySource = KeyFromSaved | KeyFromInput

  datatype Policy = Policy(onCacheFailure: CachePolicy, keySource: KeySource)

  datatype Call<R> =
    | SaveCall(record: R)
    | GetByIdCall(id: Int64)
    | SetCall(key: string, payload: R, ttl: nat)

  /** The `(record, error)` pair `Save` returns; the record is ignored on error. */
  datatype SaveOutcome<R> = Saved(record: R) | SaveFailed(error: Error)

  /** The `(record, exists, error)` triple the repository's `GetByID` returns. */
  datatype Lookup<R> = Lookup(record: R, found: bool, error: Option<Error>)

  /** What `Create` returns, with the calls it made. */
  datatype Created<R> = Created(record: R, error: Option<Error>, trace: seq<Call<R>>)

  /** What `GetByID` returns, with the calls it made. */
  datatype Found<R> = Found(record: R, found: bool, error: Option<Error>, trace: seq<Call<R>>)

  /** The calls made by a run that validated and saved `saved`. */
  function SavedTrace<R>(input: R, key: string, saved: R): seq<Call<R>>
  {
    [SaveCall(input), SetCall(key, saved, CacheTtl)]
  }

  function Create<R>(policy: Policy, idOf: R -> Int64, zero: R,
                     validation: Outcome<Error>, input: R,
                     save: SaveOutcome<R>, setResult: Option<Error>): (r: Created<R>)
    // nothing is persisted or cached after a validation failure
    ensures validation.Fail? ==> r == Created(zero, Some(validation.error), [])
    // a Save error is returned verbatim and nothing is cached
    ensures validation.Pass? && save.SaveFailed? ==> r == Created(zero, Some(save.error), [SaveCall(input)])
    // success means validation and Save succeeded, and the saved record is returned
    ensures r.error.None? ==> validation.Pass? && save.Saved? && r.record == save.record
    // calls happen in order: Save on the input, then at most one Set of the saved record
    ensures |r.trace| <= 2
    ensures |r.trace| >= 1 ==> r.trace[0] == SaveCall(input)
    ensures |r.trace| == 2 ==> save.Saved? && r.trace[1].SetCall?
                               && r.trace[1].payload == save.record && r.trace[1].ttl == CacheTtl
    // once Save succeeds the Set always happens, under the key the policy picks
    ensures validation.Pass? && save.Saved? ==>
              |r.trace| == 2
              && r.trace[1].key == IdKey(if policy.keySource == KeyFromInput then idOf(input) else idOf(save.record))
  {
    if validation.Fail? then Created(zero, Some(validation.error), [])
    else
      match save
      case SaveFailed(e) => Created(zero, Some(e), [SaveCall(input)])
      case Saved(saved) =>
        var keyId := if policy.keySource == KeyFromInput then idOf(input) else idOf(saved);
        var trace := SavedTrace(input, IdKey(keyId), saved);
        match setResult
        case None => Created(saved, None, trace)
        case Some(e) =>
          if policy.onCacheFailure == CacheFailureFatal then Created(zero, Some(e), trace)
          else Created(saved, None, trace)
  }

  function GetById<R>(policy: Policy, idOf: R -> Int64, zero: R,
                      id: Int64, lookup: Lookup<R>, setResult: Option<Error>): (r: Found<R>)
    // a repository error is returned with the repository's exists flag
    ensures lookup.error.Some? ==> r == Found(zero, lookup.found, lookup.error, [GetByIdCall(id)])
    // absence is not an error and nothing is cached
    ensures lookup.error.None? && !lookup.found ==> r == Found(zero, false, None, [GetByIdCall(id)])
    // a found record is always re-cached under its own identifier
    ensures lookup.error.None? && lookup.found ==>
              r.found && r.trace == [GetByIdCall(id), SetCall(IdKey(idOf(lookup.record)), lookup.record, CacheTtl)]
    ensures r.error.None? && r.found ==> r.record == lookup.record
  {
    if lookup.error.Some? then Found(zero, lookup.found, lookup.error, [GetByIdCall(id)])
    else if !lookup.found then Found(zero, false, None, [GetByIdCall(id)])
    else
      var trace := [GetByIdCall(id), SetCall(IdKey(idOf(lookup.record)), lookup.record, CacheTtl)];
      match setResult
      case None => Found(lookup.record, true, None, trace)
      case Some(e) =>
        if policy.onCacheFailure == CacheFailureFatal then Found(zero, true, Some(e), trace)
        else Found(lookup.record, true, None, trace)
  }

  /** The two cache policies give the same answer unless a `Set` actually
      failed after a successful `Save`, and then they differ exactly in
      whether the saved record or the cache error reaches the caller. */
  lemma CreatePoliciesDiffer<R>(keySource: KeySource, idOf: R -> Int64, zero: R,
                                validation: Outcome<Error>, input: R,
                                save: SaveOutcome<R>, setResult: Option<Error>)
    ensures var fatal := Create(Policy(CacheFailureFatal, keySource), idOf, zero, validation, input, save, setResult);
            var lenient := Create(Policy(CacheFailureSwallowed, keySource), idOf, zero, validation, input, save, setResult);
            && fatal.trace == lenient.trace
            && (!(validation.Pass? && save.Saved? && setResult.Some?) ==> fatal == lenient)
            && (validation.Pass? && save.Saved? && setResult.Some? ==>
                  fatal.record == zero && fatal.error == setResult
                  && lenient.record == save.record && lenient.error == None)
  {
  }

  /** Under the fatal policy a successful `Create` guarantees that the
      returned record was written to the cache under its key; a lenient
      service gives no such guarantee. */
  lemma FatalCreateSuccessMeansCached<R>(idOf: R -> Int64, zero: R,
                                         validation: Outcome<Error>, input: R,
                                         save: SaveOutcome<R>, setResult: Option<Error>)
    requires Create(Policy(CacheFailureFatal, KeyFromSaved), idOf, zero, validation, input, save, setResult).error.None?
    ensures setResult.None?
    ensures var r := Create(Policy(CacheFailureFatal, KeyFromSaved), idOf, zero, validation, input, save, setResult);
            r.trace == [SaveCall(input), SetCall(IdKey(idOf(r.record)), r.record, CacheTtl)]
  {
  }

  lemma LenientCreateIgnoresCache<R>(keySource: KeySource, idOf: R -> Int64, zero: R, input: R,
                                     saved: R, setResult: Option<Error>)
    ensures var r := Create(Policy(CacheFailureSwallowed, keySource), idOf, zero, Pass, input, Saved(saved), setResult);
            r.record == saved && r.error.None?
  {
  }

  /** A record saved by `Create` and later read back by `GetById` is written
      to the cache under the same key both times exactly when the policy keys
      `Create` by the saved record, or the input already carried the saved
      identifier. */
  lemma CreateThenGetByIdKeys<R>(policy: Policy, idOf: R -> Int64, zero: R, input: R, saved: R,
                                 createSet: Option<Error>, id: Int64, getSet: Option<Error>)
    ensures var c := Create(policy, idOf, zero, Pass, input, Saved(saved), createSet);
            var g := GetById(policy, idOf, zero, id, Lookup(saved, true, None), getSet);
            c.trace[1].key == g.trace[1].key <==> policy.keySource == KeyFromSaved || idOf(input) == idOf(saved)
  {
    IdKeyInjective(idOf(input), idOf(saved));
  }
}
