/** IdempotencyInterceptor: one request at a time, and its cache keys. */
module Idempotency {
  import opened Schema

  // ----- cache keys -----

  predicate NoColon(s: string) {
    ':' !in s
  }

  /** storeId:path:clientKey */
  function CacheKey(storeId: string, path: string, clientKey: string): (key: string) {
    storeId + ":" + path + ":" + clientKey
  }

  lemma ColonAfter(a: string, x: string)
    requires NoColon(a)
    ensures (a + ":" + x)[|a|] == ':'
    ensures forall k :: 0 <= k < |a| ==> (a + ":" + x)[k] != ':'
    ensures a == (a + ":" + x)[..|a|] && x == (a + ":" + x)[|a| + 1..]
  {
    forall k | 0 <= k < |a|
      ensures (a + ":" + x)[k] != ':'
    {
      assert (a + ":" + x)[k] == a[k] && a[k] in a;
    }
  }

  lemma FirstColon(a: string, x: string, b: string, y: string)
    requires NoColon(a) && NoColon(b)
    requires a + ":" + x == b + ":" + y
    ensures a == b && x == y
  {
    ColonAfter(a, x);
    ColonAfter(b, y);
  }

  /** Keys never collide across stores, routes or client keys, whatever the client sends. */
  lemma KeysAreInjective(storeId: string, path: string, clientKey: string,
                         storeId': string, path': string, clientKey': string)
    requires NoColon(storeId) && NoColon(path) && NoColon(storeId') && NoColon(path')
    ensures CacheKey(storeId, path, clientKey) == CacheKey(storeId', path', clientKey') <==>
            storeId == storeId' && path == path' && clientKey == clientKey'
  {
    var key, key' := CacheKey(storeId, path, clientKey), CacheKey(storeId', path', clientKey');
    if key == key' {
      assert key == storeId + ":" + (path + ":" + clientKey);
      assert key' == storeId' + ":" + (path' + ":" + clientKey');
      FirstColon(storeId, path + ":" + clientKey, storeId', path' + ":" + clientKey');
      FirstColon(path, clientKey, path', clientKey');
    }
  }

  lemma ColonSplits(path: string, x: string, path': string, x': string)
    requires path + ":" + x == path' + ":" + x' && |path| < |path'|
    ensures path + ":" <= path'
  {
    var key := path + ":" + x;
    assert (path + ":") == key[..|path| + 1];
    assert path' == key[..|path'|];
  }

  lemma SameSplit(path: string, x: string, path': string, x': string)
    requires path + ":" + x == path' + ":" + x' && |path| == |path'|
    ensures path == path' && x == x'
  {
    var key, key' := path + ":" + x, path' + ":" + x';
    assert path == key[..|path|] && path' == key'[..|path|];
    assert x == key[|path| + 1..] && x' == key'[|path| + 1..];
  }

  predicate PathsOverlap(path: string, path': string) {
    path + ":" <= path' || path' + ":" <= path
  }

  /**
   Whatever the routes are: two of them have client keys for which their keys collide exactly
   when the stores are equal and one route is the other continued after a colon.
   */
  lemma KeysCollideExactly(storeId: string, path: string, storeId': string, path': string)
    requires NoColon(storeId) && NoColon(storeId')
    ensures (exists k, k' :: CacheKey(storeId, path, k) == CacheKey(storeId', path', k') && (storeId, path, k) != (storeId', path', k'))
            <==> storeId == storeId' && PathsOverlap(path, path')
  {
    if k, k' :| CacheKey(storeId, path, k) == CacheKey(storeId', path', k') && (storeId, path, k) != (storeId', path', k') {
      assert CacheKey(storeId, path, k) == storeId + ":" + (path + ":" + k);
      assert CacheKey(storeId', path', k') == storeId' + ":" + (path' + ":" + k');
      FirstColon(storeId, path + ":" + k, storeId', path' + ":" + k');
      if |path| < |path'| {
        ColonSplits(path, k, path', k');
      } else if |path'| < |path| {
        ColonSplits(path', k', path, k);
      } else {
        SameSplit(path, k, path', k');
      }
    }
    if storeId == storeId' && path + ":" <= path' {
      var x := path'[|path| + 1..];
      assert path' == path + ":" + x;
      assert CacheKey(storeId, path, x + ":") == CacheKey(storeId', path', "");
    } else if storeId == storeId' && path' + ":" <= path {
      var x := path[|path'| + 1..];
      assert path == path' + ":" + x;
      assert CacheKey(storeId, path, "") == CacheKey(storeId', path', x + ":");
    }
  }

  // ----- one request -----

  // statusCode 0 marks a reservation whose result is not known yet.
  datatype Record = Record(statusCode: nat, body: Option<string>)

  const RESERVED := Record(0, None)

  datatype Response = Response(statusCode: nat, body: Option<string>)

  datatype Answer = Answered(response: Response) | Conflict | Error(reason: string)

  // How a statement ends: it works, or it reports a failure after taking effect or not.
  datatype Sent = Works | Fails(applied: bool)

  predicate TakesEffect(sent: Sent) {
    sent.Works? || sent.applied
  }

  // How the statements of this request end, as far as they are reached.
  datatype Faults = Faults(lookup: bool, insert: Sent, record: Sent, delete: Sent)

  datatype Served = Served(records: map<string, Record>, answer: Answer, ran: bool)

  /** What a request with the given key does to the records, and how it is answered. */
  function Intercepted(records: map<string, Record>, key: string, handler: Result<Response, string>, faults: Faults): (s: Served) {
    if faults.lookup then Served(records, Error("lookup"), false)
    else if key in records then
      if records[key].statusCode == 0 then Served(records, Conflict, false)
      else Served(records, Answered(Response(records[key].statusCode, records[key].body)), false)
    else if faults.insert.Fails? then
      Served(if faults.insert.applied then records[key := RESERVED] else records, Error("insert"), false)
    else if handler.Ok? && faults.record.Works? then
      Served(records[key := Record(handler.value.statusCode, handler.value.body)], Answered(handler.value), true)
    else
      var left := if handler.Ok? && faults.record.applied then Record(handler.value.statusCode, handler.value.body) else RESERVED;
      Served(if TakesEffect(faults.delete) then records else records[key := left],
             Error(if faults.delete.Fails? then "delete" else if handler.Err? then handler.error else "record"), true)
  }

  class IdempotencyInterceptor {
    var records: map<string, Record>

    constructor ()
      ensures records == map[]
    {
      records := map[];
    }

    /** A request whose handler, if it runs, ends as given. Without the header the handler simply runs. */
    method Intercept(storeId: Option<string>, path: string, clientKey: Option<string>,
                     handler: Result<Response, string>, faults: Faults) returns (answer: Answer, ran: bool)
      modifies this
      ensures clientKey.None? || clientKey.value == "" ==>
        && ran && records == old(records)
        && answer == if handler.Ok? then Answered(handler.value) else Error(handler.error)
      ensures clientKey.Some? && clientKey.value != "" ==>
        var key := CacheKey(GetOr(storeId, "anonymous"), path, clientKey.value);
        Served(records, answer, ran) == Intercepted(old(records), key, handler, faults)
      ensures clientKey.Some? && clientKey.value != "" ==>
        var key := CacheKey(GetOr(storeId, "anonymous"), path, clientKey.value);
        var free := !faults.lookup && key !in old(records);
        && (faults.lookup ==> answer == Error("lookup"))
        && (!faults.lookup && key in old(records) ==>
              var found := old(records)[key];
              answer == if found.statusCode == 0 then Conflict else Answered(Response(found.statusCode, found.body)))
        && (free && faults.insert.Fails? ==> answer == Error("insert"))
        && (ran <==> free && faults.insert.Works?)
        && (!ran ==> records == if free && faults.insert.applied then old(records)[key := Record(0, None)] else old(records))
        && (ran && handler.Ok? && faults.record.Works? ==>
              && answer == Answered(handler.value)
              && records == old(records)[key := Record(handler.value.statusCode, handler.value.body)])
        && (ran && handler.Err? && faults.delete.Works? ==> answer == Error(handler.error))
        && (ran && handler.Ok? && faults.record.Fails? && faults.delete.Works? ==> answer == Error("record"))
        && (ran && (handler.Err? || faults.record.Fails?) && faults.delete.Fails? ==> answer == Error("delete"))
        && (ran && (handler.Err? || faults.record.Fails?) ==>
              && (faults.delete == Fails(false) <==> key in records)
              && (key in records ==>
                    records[key] == if handler.Ok? && faults.record.applied
                                    then Record(handler.value.statusCode, handler.value.body) else Record(0, None))
              && records - {key} == old(records) - {key})
    {
      ran := false;
      if clientKey.None? || clientKey.value == "" {
        ran := true;
        return if handler.Ok? then Answered(handler.value) else Error(handler.error), ran;
      }
      var key := CacheKey(GetOr(storeId, "anonymous"), path, clientKey.value);
      if faults.lookup {
        return Error("lookup"), ran;
      }
      if key in records {
        var existing := records[key];
        if existing.statusCode == 0 {
          return Conflict, ran;
        }
        return Answered(Response(existing.statusCode, existing.body)), ran;
      }
      if faults.insert.Fails? {
        if faults.insert.applied {
          records := records[key := RESERVED];
        }
        return Error("insert"), ran;
      }
      ghost var before := records;
      records := records[key := RESERVED];
      ran := true;
      var failure := "record";
      if handler.Ok? {
        if TakesEffect(faults.record) {
          records := records[key := Record(handler.value.statusCode, handler.value.body)];
        }
        if faults.record.Works? {
          return Answered(handler.value), ran;
        }
      } else {
        failure := handler.error;
      }
      if TakesEffect(faults.delete) {
        records := records - {key};
        assert records == before;
      }
      if faults.delete.Fails? {
        return Error("delete"), ran;
      }
      return Error(failure), ran;
    }
  }

  const NO_FAULTS := Faults(false, Works, Works, Works)

  /** A retry of an answered request replays its response, without running the handler again. */
  lemma RetryReplays(records: map<string, Record>, key: string, first: Result<Response, string>, faults: Faults,
                     second: Result<Response, string>)
    requires first.Ok? ==> first.value.statusCode != 0
    requires Intercepted(records, key, first, faults).answer.Answered?
    ensures var served := Intercepted(records, key, first, faults);
            var again := Intercepted(served.records, key, second, NO_FAULTS);
            again.answer == served.answer && !again.ran && again.records == served.records
  {
  }

  /**
   A request that ends in an error leaves the records as they were, so that a retry starts
   afresh, exactly unless its insert failed after taking effect or its delete never took effect.
   */
  lemma FailureLeavesNothingExactly(records: map<string, Record>, key: string, handler: Result<Response, string>, faults: Faults)
    requires Intercepted(records, key, handler, faults).answer.Error?
    ensures Intercepted(records, key, handler, faults).records == records <==>
            || faults.lookup
            || faults.insert == Fails(false)
            || (faults.insert.Works? && TakesEffect(faults.delete))
  {
    if !faults.lookup {
      var left := Intercepted(records, key, handler, faults).records;
      assert key !in records;
      assert key in left ==> left != records;
    }
  }
}
