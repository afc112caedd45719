/** The service that fronts the OpenText API: every request goes through the
    cache (GET requests with a key), then the rate limiter, then the upstream
    API. The upstream API is a fixed function from requests to outcomes, and
    its JSON decoders are functions that may fail; failures the source lets
    escape as exceptions are modelled as explicit outcomes. */
module Service {
  import opened Common
  import opened RateLimiting
  import opened Cache
  import opened Models

  // ---------------------------------------------------------------------------
  // JSON and the wire
  // ---------------------------------------------------------------------------

  datatype Json =
    | JNull
    | JBool(b: bool)
    | JNum(n: real)
    | JStr(s: string)
    | JArr(items: seq<Json>)
    | JObj(fields: seq<(string, Json)>)

  /** Python truthiness: null, false, zero and empty containers are false. */
  predicate Truthy(j: Json) {
    match j
    case JNull => false
    case JBool(b) => b
    case JNum(n) => n != 0.0
    case JStr(s) => s != ""
    case JArr(items) => items != []
    case JObj(fields) => fields != []
  }

  /** `dict.get(key)` on a decoded object. A key bound twice keeps its last
      value, as `json.loads` builds the dict. */
  function FieldOf(fields: seq<(string, Json)>, key: string): (r: Option<Json>)
    ensures r.Some? <==> exists i :: 0 <= i < |fields| && fields[i].0 == key
    ensures r.Some? ==> exists i :: 0 <= i < |fields| && fields[i] == (key, r.value) &&
                          forall j :: i < j < |fields| ==> fields[j].0 != key
  {
    if fields == [] then None
    else
      var n := |fields| - 1;
      if fields[n].0 == key then Some(fields[n].1)
      else
        var r := FieldOf(fields[..n], key);
        assert forall i :: 0 <= i < n ==> fields[i] == fields[..n][i];
        r
  }

  /** The keys of a decoded object, each once, in the order they first
      appear: what iterating the dict yields. */
  function KeysOf(fields: seq<(string, Json)>): (ks: seq<string>)
    ensures Distinct(ks)
    ensures forall k :: k in ks <==> exists i :: 0 <= i < |fields| && fields[i].0 == k
  {
    if fields == [] then []
    else
      var n := |fields| - 1;
      var ks := KeysOf(fields[..n]);
      assert forall i :: 0 <= i < n ==> fields[i] == fields[..n][i];
      if fields[n].0 in ks then ks else ks + [fields[n].0]
  }

  /** What `for x in j` yields: a list its items, a string its characters,
      an object its keys. None stands for the TypeError Python raises for
      null, booleans and numbers. */
  function Iterated(j: Json): (r: Option<seq<Json>>)
    ensures r.None? <==> j.JNull? || j.JBool? || j.JNum?
    ensures j.JArr? ==> r == Some(j.items)
    ensures j.JStr? ==> r.Some? && |r.value| == |j.s| && forall i :: 0 <= i < |j.s| ==> r.value[i] == JStr([j.s[i]])
    ensures j.JObj? ==> r.Some? && |r.value| == |KeysOf(j.fields)| &&
                        forall i :: 0 <= i < |r.value| ==> r.value[i] == JStr(KeysOf(j.fields)[i])
  {
    match j
    case JArr(items) => Some(items)
    case JStr(s) => Some(seq(|s|, i requires 0 <= i < |s| => JStr([s[i]])))
    case JObj(fields) =>
      var ks := KeysOf(fields);
      Some(seq(|ks|, i requires 0 <= i < |ks| => JStr(ks[i])))
    case _ => None
  }

  /** A string, list or object iterates to nothing exactly when it is empty,
      that is, when Python reads it as false. */
  lemma EmptyIterablesYieldNothing(j: Json)
    requires j.JStr? || j.JArr? || j.JObj?
    ensures Iterated(j) == Some([]) <==> !Truthy(j)
  {
    if j.JObj? && j.fields != [] {
      assert j.fields[0].0 in KeysOf(j.fields);
    }
  }

  /** `body.get(field, [])` iterated. None stands for the exception Python
      raises: the body is not an object, or the field is not iterable. */
  function ItemsOf(body: Json, field: string): (r: Option<seq<Json>>)
    ensures !body.JObj? ==> r.None?
    ensures body.JObj? && FieldOf(body.fields, field).None? ==> r == Some([])
    ensures body.JObj? && FieldOf(body.fields, field).Some? ==> r == Iterated(FieldOf(body.fields, field).value)
  {
    match body
    case JObj(fields) =>
      (match FieldOf(fields, field)
       case None => Some([])
       case Some(v) => Iterated(v))
    case _ => None
  }

  datatype HttpMethod = GET | PUT

  /** What a PUT sends: the record's `to_dict()`. */
  datatype Payload = NoPayload | AccountBody(account: AccountRecord) | PortingBody(porting: PortingRecord)

  datatype Request = Request(verb: HttpMethod, endpoint: string, payload: Payload, query: seq<(string, string)>)

  /** What the upstream call produces: a status and decoded body, or a
      transport failure (an `aiohttp` client error, a timeout, a body that is
      not JSON). */
  datatype Outcome = Reply(status: int, body: Json) | ClientFailure

  /** `OpenTextAPIError`. */
  datatype ApiError = StatusError(status: int, body: Json) | ClientError

  /** How a dispatched request ends: statuses from 400 up are errors. */
  function ResultOf(o: Outcome): (r: Result<Json, ApiError>)
    ensures r.Ok? <==> o.Reply? && o.status < 400
    ensures r.Ok? ==> r.value == o.body
    ensures o.Reply? && 400 <= o.status ==> r == Err(StatusError(o.status, o.body))
  {
    match o
    case ClientFailure => Err(ClientError)
    case Reply(status, body) => if status >= 400 then Err(StatusError(status, body)) else Ok(body)
  }

  // ---------------------------------------------------------------------------
  // The request flow of `_make_request`, on values
  // ---------------------------------------------------------------------------

  /** Whether the request reads and writes the cache: a GET with a non-empty key. */
  predicate Cached(req: Request, key: Option<string>) {
    req.verb == GET && key.Some? && key.value != ""
  }

  /** A cache hit: a live entry whose value is truthy. */
  predicate CacheHit(c: Store<Json>, req: Request, key: Option<string>, now: real) {
    Cached(req, key) && Lookup(c, key.value, now).Some? && Truthy(Lookup(c, key.value, now).value)
  }

  /** What the request returns, given what upstream would answer. */
  function Response(c: Store<Json>, req: Request, key: Option<string>, now: real, answer: Outcome): (r: Result<Json, ApiError>)
    ensures CacheHit(c, req, key, now) ==> r == Ok(c[key.value].value) && Truthy(r.value)
    ensures !CacheHit(c, req, key, now) ==> r == ResultOf(answer)
  {
    if CacheHit(c, req, key, now) then Ok(Lookup(c, key.value, now).value) else ResultOf(answer)
  }

  /** The cache after a miss: the lookup drops an expired entry, and a
      successful response is stored under the key until `t + ttl`. */
  function CacheAfterMiss(c: Store<Json>, req: Request, key: Option<string>, ttl: int, now: real, t: real, answer: Outcome): Store<Json> {
    if !Cached(req, key) then c
    else
      var looked := AfterGet(c, key.value, now);
      match ResultOf(answer)
      case Ok(body) => looked[key.value := Entry(body, t + ttl as real)]
      case Err(_) => looked
  }

  /** The whole effect of one request on the cache, the limiter's bucket and
      the log of dispatched requests: a hit changes nothing; a miss takes one
      token (waiting for it), dispatches the request once and updates the
      cache as CacheAfterMiss says. */
  predicate Effects(c0: Store<Json>, b0: Bucket, d0: seq<Request>,
                    c1: Store<Json>, b1: Bucket, d1: seq<Request>,
                    req: Request, key: Option<string>, ttl: int, now: real, t: real, answer: Outcome)
  {
    && WellFormed(b0) && 1 <= b0.maxTokens && NotBefore(b0, now)
    && if CacheHit(c0, req, key, now) then
         c1 == c0 && b1 == b0 && d1 == d0 && t == now
       else
         && (b1, t) == Acquired(b0, 1, now)
         && d1 == d0 + [req]
         && c1 == CacheAfterMiss(c0, req, key, ttl, now, t, answer)
  }

  /** A falsy cached value does not count as a hit: the request is sent again. */
  lemma FalsyCachedValueIsRefetched(c: Store<Json>, req: Request, key: Option<string>, now: real, answer: Outcome)
    requires Cached(req, key) && Lookup(c, key.value, now).Some? && !Truthy(Lookup(c, key.value, now).value)
    ensures !CacheHit(c, req, key, now)
    ensures Response(c, req, key, now, answer) == ResultOf(answer)
  {
  }

  /** Requests other than GET never touch the cache, and failed requests
      store nothing. */
  lemma {:induction false} OnlySuccessfulGetsAreStored(c: Store<Json>, req: Request, key: Option<string>, ttl: int, now: real, t: real, answer: Outcome)
    ensures req.verb != GET ==> CacheAfterMiss(c, req, key, ttl, now, t, answer) == c && !CacheHit(c, req, key, now)
    ensures ResultOf(answer).Err? && Cached(req, key) ==>
              CacheAfterMiss(c, req, key, ttl, now, t, answer) == AfterGet(c, key.value, now)
    ensures ResultOf(answer).Err? ==> CacheAfterMiss(c, req, key, ttl, now, t, answer).Keys <= c.Keys
  {
    if Cached(req, key) {
      GetEvictionInvisible(c, key.value, now, key.value);
    }
  }

  /** A successful truthy GET is answered from the cache, without another
      dispatch, by every repeat before its time-to-live runs out. */
  lemma {:induction false} MissThenHit(c: Store<Json>, req: Request, key: Option<string>, ttl: int, now: real, t: real,
                                       later: real, answer: Outcome, again: Outcome)
    requires Cached(req, key) && answer.Reply? && answer.status < 400 && Truthy(answer.body)
    requires later < t + ttl as real
    ensures CacheHit(CacheAfterMiss(c, req, key, ttl, now, t, answer), req, key, later)
    ensures Response(CacheAfterMiss(c, req, key, ttl, now, t, answer), req, key, later, again) == Ok(answer.body)
  {
    var c' := CacheAfterMiss(c, req, key, ttl, now, t, answer);
    assert c' == AfterGet(c, key.value, now)[key.value := Entry(answer.body, t + ttl as real)];
    assert Lookup(c', key.value, later) == Some(answer.body);
  }

  // ---------------------------------------------------------------------------
  // Endpoints and cache keys
  // ---------------------------------------------------------------------------

  function AccountKey(accountId: string): string { "account:" + accountId }
  function ChildrenKey(parentId: string): string { "child_accounts:" + parentId }
  function FaxUsageKey(accountId: string, start: string, end: string): string {
    "fax_usage:" + accountId + ":" + start + ":" + end
  }
  function PortingKey(phoneNumber: string): string { "porting:" + phoneNumber }
  function UsageKey(accountId: string, usageType: UsageDataType, start: string, end: string): string {
    "usage:" + accountId + ":" + usageType.Value() + ":" + start + ":" + end
  }

  const AccountTtl := 600
  const ChildrenTtl := 300
  const FaxUsageTtl := 900
  const PortingTtl := 300
  const UsageTtl := 600

  function AccountRequest(accountId: string): Request {
    Request(GET, "/accounts/" + accountId, NoPayload, [])
  }
  function ChildrenRequest(parentId: string): Request {
    Request(GET, "/accounts/" + parentId + "/children", NoPayload, [])
  }
  function FaxUsageRequest(accountId: string, start: string, end: string): Request {
    Request(GET, "/accounts/" + accountId + "/fax/usage", NoPayload, [("start_date", start), ("end_date", end)])
  }
  function PortingRequest(phoneNumber: string): Request {
    Request(GET, "/porting/" + phoneNumber, NoPayload, [])
  }
  function UsageRequest(accountId: string, usageType: UsageDataType, start: string, end: string): Request {
    Request(GET, "/accounts/" + accountId + "/usage", NoPayload,
            [("usage_type", usageType.Value()), ("start_date", start), ("end_date", end)])
  }
  function AccountUpdate(account: AccountRecord): Request {
    Request(PUT, "/accounts/" + account.accountId, AccountBody(account), [])
  }
  function PortingUpdate(porting: PortingRecord): Request {
    Request(PUT, "/porting/" + porting.phoneNumber, PortingBody(porting), [])
  }

  /** Each getter caches under its own prefix, so keys of different kinds
      never collide, and a single-id key names exactly one id. */
  lemma {:induction false} KeyNamespaces(a: string, b: string, p: string, s: string, e: string, u: UsageDataType)
    ensures AccountKey(a) == AccountKey(b) ==> a == b
    ensures PortingKey(a) == PortingKey(b) ==> a == b
    ensures ChildrenKey(a) == ChildrenKey(b) ==> a == b
    ensures AccountKey(a) != PortingKey(p) && AccountKey(a) != ChildrenKey(p)
    ensures AccountKey(a) != FaxUsageKey(p, s, e) && AccountKey(a) != UsageKey(p, u, s, e)
    ensures PortingKey(a) != ChildrenKey(p) && PortingKey(a) != FaxUsageKey(p, s, e)
    ensures PortingKey(a) != UsageKey(p, u, s, e)
  {
    PrefixedInjective("account:", a, b);
    PrefixedInjective("porting:", a, b);
    PrefixedInjective("child_accounts:", a, b);
    assert AccountKey(a)[0] == 'a' && PortingKey(a)[0] == 'p';
    assert ChildrenKey(p)[0] == 'c' && FaxUsageKey(p, s, e)[0] == 'f' && UsageKey(p, u, s, e)[0] == 'u';
  }

  lemma PrefixedInjective(prefix: string, a: string, b: string)
    ensures prefix + a == prefix + b ==> a == b
  {
    if prefix + a == prefix + b {
      assert a == (prefix + a)[|prefix|..];
      assert b == (prefix + b)[|prefix|..];
    }
  }

  /** After an update's invalidation the matching getter misses and asks
      upstream again, and other keys are read as before. */
  lemma InvalidationForcesRefetch(c: Store<Json>, accountId: string, phoneNumber: string, now: real, answer: Outcome, other: string)
    requires other != AccountKey(accountId)
    ensures !CacheHit(c - {AccountKey(accountId)}, AccountRequest(accountId), Some(AccountKey(accountId)), now)
    ensures !CacheHit(c - {PortingKey(phoneNumber)}, PortingRequest(phoneNumber), Some(PortingKey(phoneNumber)), now)
    ensures Response(c - {AccountKey(accountId)}, AccountRequest(accountId), Some(AccountKey(accountId)), now, answer) == ResultOf(answer)
    ensures Lookup(c - {AccountKey(accountId)}, other, now) == Lookup(c, other, now)
  {
  }

  // ---------------------------------------------------------------------------
  // Decoding
  // ---------------------------------------------------------------------------

  /** What a typed getter yields: a record, nothing (an API error, logged and
      swallowed), or an exception (a body `from_dict` rejects). */
  datatype Fetched<T> = Found(value: T) | Absent | Raised

  /** The decoders behind `from_dict`; None is a rejected body. */
  datatype Codec = Codec(
    account: Json -> Option<AccountRecord>,
    faxUsage: Json -> Option<FaxUsageRecord>,
    porting: Json -> Option<PortingRecord>,
    usage: Json -> Option<UsageData>)

  function Decoded<T>(res: Result<Json, ApiError>, decode: Json -> Option<T>): (r: Fetched<T>)
    ensures r.Absent? <==> res.Err?
    ensures r.Found? <==> res.Ok? && decode(res.value).Some?
    ensures r.Found? ==> decode(res.value) == Some(r.value)
  {
    match res
    case Err(_) => Absent
    case Ok(body) =>
      match decode(body)
      case Some(x) => Found(x)
      case None => Raised
  }

  /** Decoding a list of items: every item decodes, or an exception escapes. */
  function DecodeAll<T>(xs: seq<Json>, decode: Json -> Option<T>): (r: Option<seq<T>>)
    ensures r.Some? <==> forall i :: 0 <= i < |xs| ==> decode(xs[i]).Some?
    ensures r.Some? ==> |r.value| == |xs| && forall i :: 0 <= i < |xs| ==> decode(xs[i]) == Some(r.value[i])
  {
    if xs == [] then Some([])
    else
      var init := xs[..|xs| - 1];
      assert forall i :: 0 <= i < |init| ==> init[i] == xs[i];
      match DecodeAll(init, decode)
      case None => None
      case Some(done) =>
        match decode(xs[|xs| - 1])
        case None => None
        case Some(x) => Some(done + [x])
  }

  /** What a list getter yields: None is an exception escaping; an API error
      gives the empty list. */
  function ListOf<T>(res: Result<Json, ApiError>, field: string, decode: Json -> Option<T>): (r: Option<seq<T>>)
    ensures res.Err? ==> r == Some([])
    ensures res.Ok? && ItemsOf(res.value, field).Some? ==> r == DecodeAll(ItemsOf(res.value, field).value, decode)
    ensures res.Ok? && ItemsOf(res.value, field).None? ==> r.None?
  {
    match res
    case Err(_) => Some([])
    case Ok(body) =>
      match ItemsOf(body, field)
      case None => None
      case Some(items) => DecodeAll(items, decode)
  }

  // ---------------------------------------------------------------------------
  // Batching
  // ---------------------------------------------------------------------------

  /** The slices `items[i:i + size]` for i = start, start + size, ... */
  function ChunksFrom<T>(s: seq<T>, size: nat, start: nat): seq<seq<T>>
    requires size > 0 && start <= |s|
    decreases |s| - start
  {
    if start == |s| then []
    else
      var end := if start + size <= |s| then start + size else |s|;
      [s[start..end]] + ChunksFrom(s, size, end)
  }

  /** The batches `range(0, len(items), size)` cuts the input into. */
  function Chunks<T>(s: seq<T>, size: nat): seq<seq<T>>
    requires size > 0
  {
    ChunksFrom(s, size, 0)
  }

  function Flatten<T>(ss: seq<seq<T>>): seq<T> {
    if ss == [] then [] else ss[0] + Flatten(ss[1..])
  }

  lemma {:induction false} ChunksFromFlatten<T>(s: seq<T>, size: nat, start: nat)
    requires size > 0 && start <= |s|
    ensures Flatten(ChunksFrom(s, size, start)) == s[start..]
    decreases |s| - start
  {
    if start < |s| {
      var end := if start + size <= |s| then start + size else |s|;
      ChunksFromFlatten(s, size, end);
      assert ChunksFrom(s, size, start)[1..] == ChunksFrom(s, size, end);
      assert s[start..end] + s[end..] == s[start..];
    }
  }

  /** The chunks put back together are the input: every item is in exactly
      one chunk, in order. */
  lemma ChunksFlatten<T>(s: seq<T>, size: nat)
    requires size > 0
    ensures Flatten(Chunks(s, size)) == s
  {
    ChunksFromFlatten(s, size, 0);
  }

  /** `done` are the chunks before `start`. */
  predicate ChunkedUpTo<T(==)>(s: seq<T>, size: nat, start: nat, done: seq<seq<T>>)
    requires size > 0 && start <= |s|
  {
    done + ChunksFrom(s, size, start) == Chunks(s, size)
  }

  /** Cutting off the chunk at `start` extends the chunks done. */
  lemma ChunksStep<T>(s: seq<T>, size: nat, start: nat, end: nat, done: seq<seq<T>>)
    requires size > 0 && start < |s| && ChunkedUpTo(s, size, start, done)
    requires end == if start + size <= |s| then start + size else |s|
    ensures ChunkedUpTo(s, size, end, done + [s[start..end]])
  {
    assert (done + [s[start..end]]) + ChunksFrom(s, size, end) == done + ChunksFrom(s, size, start);
  }

  lemma ChunksDone<T>(s: seq<T>, size: nat, done: seq<seq<T>>)
    requires size > 0 && ChunkedUpTo(s, size, |s|, done)
    ensures done == Chunks(s, size)
  {
    assert done + [] == done;
  }

  lemma {:induction false} ChunkSizesFrom<T>(s: seq<T>, size: nat, start: nat)
    requires size > 0 && start <= |s|
    ensures forall i :: 0 <= i < |ChunksFrom(s, size, start)| ==> 1 <= |ChunksFrom(s, size, start)[i]| <= size
    ensures forall i :: 0 <= i < |ChunksFrom(s, size, start)| - 1 ==> |ChunksFrom(s, size, start)[i]| == size
    decreases |s| - start
  {
    if start < |s| {
      var end := if start + size <= |s| then start + size else |s|;
      ChunkSizesFrom(s, size, end);
      var cs := ChunksFrom(s, size, start);
      assert cs[1..] == ChunksFrom(s, size, end);
      assert forall i :: 1 <= i < |cs| ==> cs[i] == cs[1..][i - 1];
    }
  }

  /** Every chunk has between 1 and `size` items, and every chunk but the last
      has exactly `size`. */
  lemma ChunkSizes<T>(s: seq<T>, size: nat)
    requires size > 0
    ensures forall i :: 0 <= i < |Chunks(s, size)| ==> 1 <= |Chunks(s, size)[i]| <= size
    ensures forall i :: 0 <= i < |Chunks(s, size)| - 1 ==> |Chunks(s, size)[i]| == size
  {
    ChunkSizesFrom(s, size, 0);
  }

  /** The records a batch keeps from its outcomes, in order. */
  function Collect<T>(outs: seq<Fetched<T>>): (r: seq<T>)
    ensures |r| <= |outs|
  {
    if outs == [] then []
    else
      var last := outs[|outs| - 1];
      Collect(outs[..|outs| - 1]) + CollectOne(last)
  }

  /** Collecting distributes over concatenation. */
  lemma {:induction false} CollectAppend<T>(a: seq<Fetched<T>>, b: seq<Fetched<T>>)
    ensures Collect(a + b) == Collect(a) + Collect(b)
    decreases |b|
  {
    if b != [] {
      var b' := b[..|b| - 1];
      assert (a + b)[..|a + b| - 1] == a + b';
      assert (a + b)[|a + b| - 1] == b[|b| - 1];
      CollectAppend(a, b');
    } else {
      assert a + b == a;
    }
  }

  /** An item's outcome affects only its own place in the result: failing
      drops it and leaves every sibling where it was. */
  lemma {:induction false} CollectSiblingsIndependent<T>(outs: seq<Fetched<T>>, k: nat, alt: Fetched<T>)
    requires k < |outs|
    ensures Collect(outs) == Collect(outs[..k]) + CollectOne(outs[k]) + Collect(outs[k + 1..])
    ensures !alt.Found? ==> Collect(outs[k := alt]) == Collect(outs[..k]) + Collect(outs[k + 1..])
  {
    CollectAround(outs, k);
    CollectAround(outs[k := alt], k);
    UpdateKeepsSiblings(outs, k, alt);
  }

  lemma UpdateKeepsSiblings<T>(s: seq<T>, k: nat, x: T)
    requires k < |s|
    ensures s[k := x][..k] == s[..k] && s[k := x][k + 1..] == s[k + 1..]
  {
  }

  /** The result for a single outcome. */
  function CollectOne<T>(out: Fetched<T>): seq<T> {
    if out.Found? then [out.value] else []
  }

  /** Collecting one more outcome appends its record, if any. */
  lemma CollectSnoc<T>(outs: seq<Fetched<T>>, out: Fetched<T>)
    ensures Collect(outs + [out]) == Collect(outs) + CollectOne(out)
  {
    assert (outs + [out])[..|outs|] == outs;
  }

  lemma {:induction false} CollectAround<T>(outs: seq<Fetched<T>>, k: nat)
    requires k < |outs|
    ensures Collect(outs) == Collect(outs[..k]) + CollectOne(outs[k]) + Collect(outs[k + 1..])
  {
    var before, after := outs[..k], outs[k + 1..];
    assert outs == before + [outs[k]] + after;
    CollectSnoc(before, outs[k]);
    CollectAppend(before + [outs[k]], after);
  }

  /** Exactly the found records are kept. */
  lemma {:induction false} CollectMembers<T>(outs: seq<Fetched<T>>, x: T)
    ensures x in Collect(outs) <==> Found(x) in outs
    decreases |outs|
  {
    if outs != [] {
      var init := outs[..|outs| - 1];
      CollectMembers(init, x);
      assert outs == init + [outs[|outs| - 1]];
    }
  }

  /** With no failures the result has one record per item. */
  lemma {:induction false} CollectAllFound<T>(outs: seq<Fetched<T>>)
    requires forall i :: 0 <= i < |outs| ==> outs[i].Found?
    ensures |Collect(outs)| == |outs|
    ensures forall i :: 0 <= i < |outs| ==> Collect(outs)[i] == outs[i].value
    decreases |outs|
  {
    if outs != [] {
      var init := outs[..|outs| - 1];
      CollectAllFound(init);
    }
  }

  // ---------------------------------------------------------------------------
  // Batches
  // ---------------------------------------------------------------------------

  /** What one getter call sends: its request, the key it caches under and
      the time-to-live it caches for. */
  datatype Call = Call(req: Request, key: Option<string>, ttl: int)

  function AccountCall(accountId: string): Call {
    Call(AccountRequest(accountId), Some(AccountKey(accountId)), AccountTtl)
  }

  function FaxUsageCall(start: string, end: string): string -> Call {
    accountId => Call(FaxUsageRequest(accountId, start, end), Some(FaxUsageKey(accountId, start, end)), FaxUsageTtl)
  }

  function PortingCall(phoneNumber: string): Call {
    Call(PortingRequest(phoneNumber), Some(PortingKey(phoneNumber)), PortingTtl)
  }

  function UsageCall(usageType: UsageDataType, start: string, end: string): string -> Call {
    accountId => Call(UsageRequest(accountId, usageType, start, end), Some(UsageKey(accountId, usageType, start, end)), UsageTtl)
  }

  /** What a request starts from or leaves behind: the cache, the limiter's
      bucket, the requests dispatched so far and the clock reading. */
  datatype Snapshot = Snapshot(cache: Store<Json>, bucket: Bucket, log: seq<Request>, time: real)

  /** One request takes the service from `s0` to `s1`, as `Effects` says. */
  predicate Step(upstream: Request -> Outcome, call: Call, s0: Snapshot, s1: Snapshot) {
    Effects(s0.cache, s0.bucket, s0.log, s1.cache, s1.bucket, s1.log,
            call.req, call.key, call.ttl, s0.time, s1.time, upstream(call.req))
  }

  /** One call per item, in input order, each exactly once, each starting
      where the one before left off: `trace[k]` is the state the k-th call
      starts from and `trace[k + 1]` the state it leaves. */
  predicate Traced(upstream: Request -> Outcome, call: string -> Call, ids: seq<string>, trace: seq<Snapshot>) {
    |trace| == |ids| + 1 &&
    forall k {:trigger ids[k]} :: 0 <= k < |ids| ==> Step(upstream, call(ids[k]), trace[k], trace[k + 1])
  }

  /** The call for the next item extends the trace. */
  lemma TracedSnoc(upstream: Request -> Outcome, call: string -> Call, ids: seq<string>, j: nat,
                   trace: seq<Snapshot>, next: Snapshot)
    requires j < |ids| && Traced(upstream, call, ids[..j], trace)
    requires Step(upstream, call(ids[j]), trace[j], next)
    ensures Traced(upstream, call, ids[..j + 1], trace + [next])
  {
    var ids', trace' := ids[..j + 1], trace + [next];
    forall k | 0 <= k < |ids'| ensures Step(upstream, call(ids'[k]), trace'[k], trace'[k + 1]) {
      assert ids'[k] == ids[k];
      if k < j {
        assert ids[..j][k] == ids[k];
        assert trace'[k] == trace[k] && trace'[k + 1] == trace[k + 1];
      }
    }
  }

  /** The first `n` calls of a trace are a trace of their own. */
  lemma TracedPrefix(upstream: Request -> Outcome, call: string -> Call, ids: seq<string>, trace: seq<Snapshot>, n: nat)
    requires Traced(upstream, call, ids, trace) && n <= |ids|
    ensures Traced(upstream, call, ids[..n], trace[..n + 1])
  {
    forall k | 0 <= k < n ensures Step(upstream, call(ids[..n][k]), trace[..n + 1][k], trace[..n + 1][k + 1]) {
      assert ids[..n][k] == ids[k];
    }
  }

  /** A chunk traced from where the items before it left off extends their
      trace. */
  lemma TracedConcat(upstream: Request -> Outcome, call: string -> Call, ids: seq<string>, lo: nat, hi: nat,
                     trace: seq<Snapshot>, trace': seq<Snapshot>)
    requires lo <= hi <= |ids|
    requires Traced(upstream, call, ids[..lo], trace) && Traced(upstream, call, ids[lo..hi], trace')
    requires trace'[0] == trace[lo]
    ensures Traced(upstream, call, ids[..hi], trace + trace'[1..])
  {
    var all := trace + trace'[1..];
    forall k | 0 <= k < hi ensures Step(upstream, call(ids[..hi][k]), all[k], all[k + 1]) {
      assert ids[..hi][k] == ids[k];
      if k < lo {
        assert ids[..lo][k] == ids[k];
        assert all[k] == trace[k];
        assert all[k + 1] == if k + 1 < lo then trace[k + 1] else trace'[0];
      } else {
        assert ids[lo..hi][k - lo] == ids[k];
        assert all[k] == if k == lo then trace[lo] else trace'[k - lo];
        assert all[k + 1] == trace'[k - lo + 1];
      }
    }
  }

  /** The requests a traced run dispatches: the request of every call that
      missed the cache, in order. */
  function Sent(call: string -> Call, ids: seq<string>, trace: seq<Snapshot>): seq<Request>
    requires |trace| == |ids| + 1
  {
    if ids == [] then []
    else
      var n := |ids| - 1;
      var c := call(ids[n]);
      Sent(call, ids[..n], trace[..n + 1]) + (if CacheHit(trace[n].cache, c.req, c.key, trace[n].time) then [] else [c.req])
  }

  /** Across a traced run the log of dispatched requests grows by exactly the
      requests of the calls that missed the cache, in order; so a run of n
      calls reaches the upstream API at most n times, and every hit costs no
      token and no clock time. */
  lemma {:induction false} TracedDispatches(upstream: Request -> Outcome, call: string -> Call, ids: seq<string>, trace: seq<Snapshot>)
    requires Traced(upstream, call, ids, trace)
    ensures trace[|ids|].log == trace[0].log + Sent(call, ids, trace)
    ensures |Sent(call, ids, trace)| <= |ids|
    ensures forall k :: 0 <= k < |ids| && CacheHit(trace[k].cache, call(ids[k]).req, call(ids[k]).key, trace[k].time) ==>
              trace[k + 1].bucket == trace[k].bucket && trace[k + 1].time == trace[k].time
    decreases |ids|
  {
    if ids != [] {
      var n := |ids| - 1;
      TracedPrefix(upstream, call, ids, trace, n);
      TracedDispatches(upstream, call, ids[..n], trace[..n + 1]);
      assert Step(upstream, call(ids[n]), trace[n], trace[n + 1]);
      forall k | 0 <= k < |ids| ensures Step(upstream, call(ids[k]), trace[k], trace[k + 1]) {
      }
    }
  }

  /** A getter's outcome as a function of the cache it starts from, the item
      and the clock reading. */
  type Fetcher<T> = (Store<Json>, string, real) -> Fetched<T>

  /** A traced run whose k-th outcome is what the getter yields for the k-th
      item from the state its call started in. */
  ghost predicate InOrder<T>(upstream: Request -> Outcome, call: string -> Call, fetch: Fetcher<T>,
                             ids: seq<string>, outs: seq<Fetched<T>>, trace: seq<Snapshot>) {
    Traced(upstream, call, ids, trace) && |outs| == |ids| &&
    forall k {:trigger outs[k]} :: 0 <= k < |outs| ==> outs[k] == fetch(trace[k].cache, ids[k], trace[k].time)
  }

  /** The call for the next item extends the line-up. */
  lemma InOrderSnoc<T>(upstream: Request -> Outcome, call: string -> Call, fetch: Fetcher<T>, ids: seq<string>, j: nat,
                       outs: seq<Fetched<T>>, trace: seq<Snapshot>, out: Fetched<T>, next: Snapshot)
    requires j < |ids| && InOrder(upstream, call, fetch, ids[..j], outs, trace)
    requires out == fetch(trace[j].cache, ids[j], trace[j].time)
    requires Step(upstream, call(ids[j]), trace[j], next)
    ensures InOrder(upstream, call, fetch, ids[..j + 1], outs + [out], trace + [next])
  {
    TracedSnoc(upstream, call, ids, j, trace, next);
    var outs', trace' := outs + [out], trace + [next];
    forall k | 0 <= k < |outs'| ensures outs'[k] == fetch(trace'[k].cache, ids[..j + 1][k], trace'[k].time) {
      assert ids[..j + 1][k] == ids[k];
      if k < j {
        assert ids[..j][k] == ids[k];
        assert outs'[k] == outs[k] && trace'[k] == trace[k];
      }
    }
  }

  /** A chunk whose calls line up from where the items before it left off
      extends their line-up, and its records follow theirs. */
  lemma InOrderConcat<T>(upstream: Request -> Outcome, call: string -> Call, fetch: Fetcher<T>, ids: seq<string>,
                         lo: nat, hi: nat, outs: seq<Fetched<T>>, trace: seq<Snapshot>,
                         outs': seq<Fetched<T>>, trace': seq<Snapshot>)
    requires lo <= hi <= |ids|
    requires InOrder(upstream, call, fetch, ids[..lo], outs, trace)
    requires InOrder(upstream, call, fetch, ids[lo..hi], outs', trace')
    requires trace'[0] == trace[lo]
    ensures InOrder(upstream, call, fetch, ids[..hi], outs + outs', trace + trace'[1..])
    ensures Collect(outs + outs') == Collect(outs) + Collect(outs')
  {
    TracedConcat(upstream, call, ids, lo, hi, trace, trace');
    var outs2, trace2 := outs + outs', trace + trace'[1..];
    forall k | 0 <= k < |outs2| ensures outs2[k] == fetch(trace2[k].cache, ids[..hi][k], trace2[k].time) {
      assert ids[..hi][k] == ids[k];
      if k < lo {
        assert ids[..lo][k] == ids[k];
        assert outs2[k] == outs[k] && trace2[k] == trace[k];
      } else {
        assert ids[lo..hi][k - lo] == ids[k];
        assert outs2[k] == outs'[k - lo];
        assert trace2[k] == if k == lo then trace[lo] else trace'[k - lo];
      }
    }
    CollectAppend(outs, outs');
  }

  /** One chunk of a batch: its line-up extends the one before, its records
      follow theirs, and the state it leaves is where the run stands. */
  lemma BatchStep<T>(upstream: Request -> Outcome, call: string -> Call, fetch: Fetcher<T>, ids: seq<string>,
                     lo: nat, hi: nat, outs: seq<Fetched<T>>, trace: seq<Snapshot>,
                     outs': seq<Fetched<T>>, trace': seq<Snapshot>)
    requires lo <= hi <= |ids|
    requires InOrder(upstream, call, fetch, ids[..lo], outs, trace)
    requires InOrder(upstream, call, fetch, ids[lo..hi], outs', trace')
    requires trace'[0] == trace[lo]
    ensures InOrder(upstream, call, fetch, ids[..hi], outs + outs', trace + trace'[1..])
    ensures (trace + trace'[1..])[0] == trace[0] && (trace + trace'[1..])[hi] == trace'[hi - lo]
    ensures Collect(outs + outs') == Collect(outs) + Collect(outs')
  {
    InOrderConcat(upstream, call, fetch, ids, lo, hi, outs, trace, outs', trace');
    JoinEnds(trace, trace');
  }

  /** Joining two traces that meet in the middle keeps the first one's start
      and the second one's end. */
  lemma JoinEnds<S>(a: seq<S>, b: seq<S>)
    requires |a| > 0 && |b| > 0 && b[0] == a[|a| - 1]
    ensures (a + b[1..])[0] == a[0] && (a + b[1..])[|a| + |b| - 2] == b[|b| - 1]
  {
  }

  /** A list getter's result as a function of the cache it starts from, the
      item and the clock reading; None is an exception escaping. */
  type ListFetcher<T> = (Store<Json>, string, real) -> Option<seq<T>>

  /** A traced run of list-getter calls, each returning its list. */
  ghost predicate ListedInOrder<T>(upstream: Request -> Outcome, call: string -> Call, fetch: ListFetcher<T>,
                                   ids: seq<string>, lists: seq<seq<T>>, trace: seq<Snapshot>) {
    Traced(upstream, call, ids, trace) && |lists| == |ids| &&
    forall k {:trigger lists[k]} :: 0 <= k < |lists| ==> fetch(trace[k].cache, ids[k], trace[k].time) == Some(lists[k])
  }

  lemma ListedInOrderSnoc<T>(upstream: Request -> Outcome, call: string -> Call, fetch: ListFetcher<T>, ids: seq<string>, j: nat,
                             lists: seq<seq<T>>, trace: seq<Snapshot>, list: seq<T>, next: Snapshot)
    requires j < |ids| && ListedInOrder(upstream, call, fetch, ids[..j], lists, trace)
    requires fetch(trace[j].cache, ids[j], trace[j].time) == Some(list)
    requires Step(upstream, call(ids[j]), trace[j], next)
    ensures ListedInOrder(upstream, call, fetch, ids[..j + 1], lists + [list], trace + [next])
  {
    TracedSnoc(upstream, call, ids, j, trace, next);
    var lists', trace' := lists + [list], trace + [next];
    forall k | 0 <= k < |lists'| ensures fetch(trace'[k].cache, ids[..j + 1][k], trace'[k].time) == Some(lists'[k]) {
      assert ids[..j + 1][k] == ids[k];
      if k < j {
        assert ids[..j][k] == ids[k];
        assert lists'[k] == lists[k] && trace'[k] == trace[k];
      }
    }
  }

  // ---------------------------------------------------------------------------
  // Aggregation
  // ---------------------------------------------------------------------------

  /** The sum of a measure over records, as Python's `sum` adds them. */
  function SumOf(rs: seq<UsageData>, m: UsageData -> real): real {
    if rs == [] then 0.0 else SumOf(rs[..|rs| - 1], m) + m(rs[|rs| - 1])
  }

  function Quantity(u: UsageData): real { u.quantity }
  function CostOf(u: UsageData): real { u.cost }

  /** The records of one account, in order. */
  function OfAccount(rs: seq<UsageData>, accountId: string): (r: seq<UsageData>)
    ensures |r| <= |rs|
    ensures forall u :: u in r <==> u in rs && u.accountId == accountId
  {
    if rs == [] then []
    else
      var last := rs[|rs| - 1];
      OfAccount(rs[..|rs| - 1], accountId) + (if last.accountId == accountId then [last] else [])
  }

  /** Each requested account's entry: the quantity, cost and number of its
      own records. */
  function Breakdown(accountIds: seq<string>, rs: seq<UsageData>): (b: map<string, AccountUsage>)
    ensures b.Keys == set id | id in accountIds
    ensures forall id :: id in b ==>
              && b[id].quantity == SumOf(OfAccount(rs, id), Quantity)
              && b[id].cost == SumOf(OfAccount(rs, id), CostOf)
              && b[id].count == |OfAccount(rs, id)|
  {
    map id | id in accountIds ::
      AccountUsage(SumOf(OfAccount(rs, id), Quantity), SumOf(OfAccount(rs, id), CostOf), |OfAccount(rs, id)|)
  }

  /** The aggregate `aggregate_usage` builds from the collected records. */
  function Aggregate(accountIds: seq<string>, usageType: UsageDataType, start: string, end: string,
                     rs: seq<UsageData>, createdAt: real): (a: UsageAggregation)
    ensures a.accountIds == accountIds && a.usageType == usageType
    ensures a.periodStart == start && a.periodEnd == end && a.createdAt == createdAt
    ensures a.totalQuantity == SumOf(rs, Quantity) && a.totalCost == SumOf(rs, CostOf)
    ensures a.breakdown == Breakdown(accountIds, rs)
  {
    UsageAggregation(accountIds, usageType, SumOf(rs, Quantity), SumOf(rs, CostOf), start, end,
                     Breakdown(accountIds, rs), createdAt)
  }

  /** The measure summed over the per-account slices of the given accounts. */
  function SumOverAccounts(accountIds: seq<string>, rs: seq<UsageData>, m: UsageData -> real): real {
    if accountIds == [] then 0.0
    else SumOverAccounts(accountIds[..|accountIds| - 1], rs, m) + SumOf(OfAccount(rs, accountIds[|accountIds| - 1]), m)
  }

  /** The part of one record's measure that the given accounts claim. */
  function Claimed(accountIds: seq<string>, u: UsageData, m: UsageData -> real): real {
    if accountIds == [] then 0.0
    else Claimed(accountIds[..|accountIds| - 1], u, m) + (if u.accountId == accountIds[|accountIds| - 1] then m(u) else 0.0)
  }

  lemma OfAccountSnoc(rs: seq<UsageData>, u: UsageData, accountId: string)
    ensures OfAccount(rs + [u], accountId) == OfAccount(rs, accountId) + (if u.accountId == accountId then [u] else [])
  {
    assert (rs + [u])[..|rs + [u]| - 1] == rs;
  }

  lemma SumOfSnoc(rs: seq<UsageData>, u: UsageData, m: UsageData -> real)
    ensures SumOf(rs + [u], m) == SumOf(rs, m) + m(u)
  {
    assert (rs + [u])[..|rs + [u]| - 1] == rs;
  }

  lemma {:induction false} SumOverAccountsStep(accountIds: seq<string>, rs: seq<UsageData>, u: UsageData, m: UsageData -> real)
    ensures SumOverAccounts(accountIds, rs + [u], m) == SumOverAccounts(accountIds, rs, m) + Claimed(accountIds, u, m)
    decreases |accountIds|
  {
    if accountIds != [] {
      var init, id := accountIds[..|accountIds| - 1], accountIds[|accountIds| - 1];
      SumOverAccountsStep(init, rs, u, m);
      OfAccountSnoc(rs, u, id);
      if u.accountId == id {
        SumOfSnoc(OfAccount(rs, id), u, m);
      } else {
        assert OfAccount(rs + [u], id) == OfAccount(rs, id);
      }
    }
  }

  lemma {:induction false} ClaimedOnce(accountIds: seq<string>, u: UsageData, m: UsageData -> real)
    requires Distinct(accountIds)
    ensures Claimed(accountIds, u, m) == if u.accountId in accountIds then m(u) else 0.0
    decreases |accountIds|
  {
    if accountIds != [] {
      var init, id := accountIds[..|accountIds| - 1], accountIds[|accountIds| - 1];
      assert Distinct(init);
      ClaimedOnce(init, u, m);
      assert id !in init;
      assert accountIds == init + [id];
    }
  }

  /** When the accounts are distinct and every record belongs to one of them,
      the per-account sums add up to the sum over all records. */
  lemma {:induction false} SumOverAccountsAddsUp(accountIds: seq<string>, rs: seq<UsageData>, m: UsageData -> real)
    requires Distinct(accountIds)
    requires forall i :: 0 <= i < |rs| ==> rs[i].accountId in accountIds
    ensures SumOverAccounts(accountIds, rs, m) == SumOf(rs, m)
    decreases |rs|
  {
    if rs == [] {
      SumOverEmpty(accountIds, m);
    } else {
      var init, u := rs[..|rs| - 1], rs[|rs| - 1];
      assert rs == init + [u];
      SumOverAccountsAddsUp(accountIds, init, m);
      SumOverAccountsStep(accountIds, init, u, m);
      ClaimedOnce(accountIds, u, m);
      SumOfSnoc(init, u, m);
    }
  }

  lemma {:induction false} SumOverEmpty(accountIds: seq<string>, m: UsageData -> real)
    ensures SumOverAccounts(accountIds, [], m) == 0.0
    decreases |accountIds|
  {
    if accountIds != [] {
      SumOverEmpty(accountIds[..|accountIds| - 1], m);
    }
  }

  /** A measure of the breakdown's entries, summed over the given accounts. */
  function EntrySum(accountIds: seq<string>, b: map<string, AccountUsage>, m: AccountUsage -> real): real
    requires forall id :: id in accountIds ==> id in b
  {
    if accountIds == [] then 0.0
    else EntrySum(accountIds[..|accountIds| - 1], b, m) + m(b[accountIds[|accountIds| - 1]])
  }

  function EntryQuantity(e: AccountUsage): real { e.quantity }
  function EntryCost(e: AccountUsage): real { e.cost }
  function EntryCount(e: AccountUsage): real { e.count as real }
  function One(u: UsageData): real { 1.0 }

  /** Summing the entries is summing each account's own records. */
  lemma {:induction false} EntrySumIsSumOverAccounts(accountIds: seq<string>, b: map<string, AccountUsage>, rs: seq<UsageData>,
                                                    em: AccountUsage -> real, m: UsageData -> real)
    requires forall id :: id in accountIds ==> id in b && em(b[id]) == SumOf(OfAccount(rs, id), m)
    ensures EntrySum(accountIds, b, em) == SumOverAccounts(accountIds, rs, m)
    decreases |accountIds|
  {
    if accountIds != [] {
      EntrySumIsSumOverAccounts(accountIds[..|accountIds| - 1], b, rs, em, m);
    }
  }

  /** Counting the records one by one gives their number. */
  lemma {:induction false} SumOfOne(rs: seq<UsageData>)
    ensures SumOf(rs, One) == |rs| as real
    decreases |rs|
  {
    if rs != [] {
      SumOfOne(rs[..|rs| - 1]);
    }
  }

  /** When the accounts are distinct and every record belongs to one of them,
      the breakdown of the aggregate adds up to its totals: the entries'
      quantities to the total quantity, their costs to the total cost and
      their counts to the number of records. */
  lemma BreakdownAddsUp(accountIds: seq<string>, usageType: UsageDataType, start: string, end: string,
                        rs: seq<UsageData>, createdAt: real)
    requires Distinct(accountIds)
    requires forall i :: 0 <= i < |rs| ==> rs[i].accountId in accountIds
    ensures var a := Aggregate(accountIds, usageType, start, end, rs, createdAt);
            && EntrySum(accountIds, a.breakdown, EntryQuantity) == a.totalQuantity
            && EntrySum(accountIds, a.breakdown, EntryCost) == a.totalCost
            && EntrySum(accountIds, a.breakdown, EntryCount) == |rs| as real
  {
    var b := Breakdown(accountIds, rs);
    EntrySumIsSumOverAccounts(accountIds, b, rs, EntryQuantity, Quantity);
    SumOverAccountsAddsUp(accountIds, rs, Quantity);
    EntrySumIsSumOverAccounts(accountIds, b, rs, EntryCost, CostOf);
    SumOverAccountsAddsUp(accountIds, rs, CostOf);
    forall id | id in accountIds ensures EntryCount(b[id]) == SumOf(OfAccount(rs, id), One) {
      SumOfOne(OfAccount(rs, id));
    }
    EntrySumIsSumOverAccounts(accountIds, b, rs, EntryCount, One);
    SumOverAccountsAddsUp(accountIds, rs, One);
    SumOfOne(rs);
  }

  /** Costs priced at one rate per unit add up to that rate times the
      quantities. */
  lemma {:induction false} UniformCostSum(rs: seq<UsageData>, price: real)
    requires forall i :: 0 <= i < |rs| ==> rs[i].cost == price * rs[i].quantity
    ensures SumOf(rs, CostOf) == price * SumOf(rs, Quantity)
    decreases |rs|
  {
    if rs != [] {
      UniformCostSum(rs[..|rs| - 1], price);
    }
  }

  /** When every record is priced at the same rate per unit, the aggregate's
      average rate is that rate, or 0 when no quantity was used. */
  lemma UniformPriceAverageRate(accountIds: seq<string>, usageType: UsageDataType, start: string, end: string,
                                rs: seq<UsageData>, createdAt: real, price: real)
    requires forall i :: 0 <= i < |rs| ==> rs[i].cost == price * rs[i].quantity
    ensures var a := Aggregate(accountIds, usageType, start, end, rs, createdAt);
            a.CalculateAverageRate() == if a.totalQuantity == 0.0 then 0.0 else price
  {
    UniformCostSum(rs, price);
  }

  /** A record of an account that was not asked for counts in the totals but
      in no breakdown entry. */
  lemma UnrequestedRecordsOnlyInTotals(accountIds: seq<string>, rs: seq<UsageData>, k: nat)
    requires k < |rs| && rs[k].accountId !in accountIds
    ensures forall id :: id in Breakdown(accountIds, rs) ==> rs[k] !in OfAccount(rs, id)
  {
  }

  // ---------------------------------------------------------------------------
  // The service
  // ---------------------------------------------------------------------------

  class OpenTextService {
    const cache: CacheManager<Json>
    const limiter: RateLimiter
    const batchSize: int
    /** The upstream API; a fixed function of the request. */
    const upstream: Request -> Outcome
    const codec: Codec
    /** Every request that reached the upstream API, in order. */
    ghost var dispatched: seq<Request>

    /** A positive batch size, and a limiter that can ever hand out one token. */
    predicate Valid()
      reads limiter
    {
      limiter.Valid() && limiter.maxTokens >= 1 && batchSize > 0
    }

    /** The cache, the bucket and the requests dispatched so far, at clock
        reading `now`. */
    ghost function StateAt(now: real): Snapshot
      reads this, cache, limiter
    {
      Snapshot(cache.entries, limiter.State(), dispatched, now)
    }

    /** Without a limiter or cache of the caller's, a 10-per-second limiter
        and a cache swept every 300 seconds. */
    constructor (rateLimiter: Option<RateLimiter>, cacheManager: Option<CacheManager<Json>>,
                 batchSize: int, upstream: Request -> Outcome, codec: Codec)
      requires rateLimiter.Some? ==> rateLimiter.value.Valid() && rateLimiter.value.maxTokens >= 1
      requires batchSize > 0
      ensures Valid() && dispatched == []
      ensures rateLimiter.Some? ==> limiter == rateLimiter.value
      ensures rateLimiter.None? ==> fresh(limiter) && limiter.State() == Initial(10.0, None)
      ensures cacheManager.Some? ==> cache == cacheManager.value
      ensures cacheManager.None? ==> fresh(cache) && cache.entries == map[] && cache.cleanupInterval == 300
      ensures this.batchSize == batchSize && this.upstream == upstream && this.codec == codec
    {
      if rateLimiter.Some? {
        limiter := rateLimiter.value;
      } else {
        limiter := new RateLimiter(10.0, None);
      }
      if cacheManager.Some? {
        cache := cacheManager.value;
      } else {
        cache := new CacheManager(300);
      }
      this.batchSize := batchSize;
      this.upstream := upstream;
      this.codec := codec;
      dispatched := [];
    }

    /** `_make_request`: the cache for a keyed GET, then a token, then upstream.
        Returns the clock reading after any wait for a token. */
    method MakeRequest(req: Request, cacheKey: Option<string>, cacheTtl: int, now: real)
      returns (r: Result<Json, ApiError>, t: real)
      requires Valid() && NotBefore(limiter.State(), now)
      modifies this, cache, limiter
      ensures Valid() && now <= t && NotBefore(limiter.State(), t)
      ensures r == Response(old(cache.entries), req, cacheKey, now, upstream(req))
      ensures Effects(old(cache.entries), old(limiter.State()), old(dispatched),
                      cache.entries, limiter.State(), dispatched, req, cacheKey, cacheTtl, now, t, upstream(req))
    {
      t := now;
      ghost var c0 := cache.entries;
      if req.verb == GET && cacheKey.Some? && cacheKey.value != "" {
        var cachedResult := cache.Get(cacheKey.value, now);
        if cachedResult.Some? && Truthy(cachedResult.value) {
          return Ok(cachedResult.value), t;
        }
      }
      assert !CacheHit(c0, req, cacheKey, now);
      ghost var c1 := cache.entries;
      assert c1 == if Cached(req, cacheKey) then AfterGet(c0, cacheKey.value, now) else c0;
      t := limiter.Acquire(1, now);
      dispatched := dispatched + [req];
      var response := upstream(req);
      match response
      case ClientFailure =>
        r := Err(ClientError);
      case Reply(status, body) =>
        if status >= 400 {
          r := Err(StatusError(status, body));
        } else {
          if req.verb == GET && cacheKey.Some? && cacheKey.value != "" {
            cache.Set(cacheKey.value, body, cacheTtl, t);
          }
          r := Ok(body);
        }
    }

    /** What the account getter yields when it starts from cache `c` at `now`. */
    function AccountFetch(c: Store<Json>, accountId: string, now: real): Fetched<AccountRecord> {
      var req := AccountRequest(accountId);
      Decoded(Response(c, req, Some(AccountKey(accountId)), now, upstream(req)), codec.account)
    }

    function FaxUsageFetch(c: Store<Json>, accountId: string, start: string, end: string, now: real): Fetched<FaxUsageRecord> {
      var req := FaxUsageRequest(accountId, start, end);
      Decoded(Response(c, req, Some(FaxUsageKey(accountId, start, end)), now, upstream(req)), codec.faxUsage)
    }

    function PortingFetch(c: Store<Json>, phoneNumber: string, now: real): Fetched<PortingRecord> {
      var req := PortingRequest(phoneNumber);
      Decoded(Response(c, req, Some(PortingKey(phoneNumber)), now, upstream(req)), codec.porting)
    }

    /** What the usage getter returns when it starts from cache `c` at `now`. */
    function UsageFetch(c: Store<Json>, accountId: string, usageType: UsageDataType, start: string, end: string, now: real): Option<seq<UsageData>> {
      var req := UsageRequest(accountId, usageType, start, end);
      ListOf(Response(c, req, Some(UsageKey(accountId, usageType, start, end)), now, upstream(req)), "usage", codec.usage)
    }

    method GetAccount(accountId: string, now: real) returns (r: Fetched<AccountRecord>, t: real)
      requires Valid() && NotBefore(limiter.State(), now)
      modifies this, cache, limiter
      ensures Valid() && now <= t && NotBefore(limiter.State(), t)
      ensures r == AccountFetch(old(cache.entries), accountId, now)
      ensures Effects(old(cache.entries), old(limiter.State()), old(dispatched), cache.entries, limiter.State(), dispatched,
                      AccountRequest(accountId), Some(AccountKey(accountId)), AccountTtl, now, t, upstream(AccountRequest(accountId)))
    {
      var response;
      response, t := MakeRequest(AccountRequest(accountId), Some(AccountKey(accountId)), AccountTtl, now);
      r := Decoded(response, codec.account);
    }

    method GetFaxUsage(accountId: string, start: string, end: string, now: real) returns (r: Fetched<FaxUsageRecord>, t: real)
      requires Valid() && NotBefore(limiter.State(), now)
      modifies this, cache, limiter
      ensures Valid() && now <= t && NotBefore(limiter.State(), t)
      ensures r == FaxUsageFetch(old(cache.entries), accountId, start, end, now)
      ensures var req := FaxUsageRequest(accountId, start, end);
              Effects(old(cache.entries), old(limiter.State()), old(dispatched), cache.entries, limiter.State(), dispatched,
                      req, Some(FaxUsageKey(accountId, start, end)), FaxUsageTtl, now, t, upstream(req))
    {
      var response;
      response, t := MakeRequest(FaxUsageRequest(accountId, start, end), Some(FaxUsageKey(accountId, start, end)), FaxUsageTtl, now);
      r := Decoded(response, codec.faxUsage);
    }

    method GetPortingStatus(phoneNumber: string, now: real) returns (r: Fetched<PortingRecord>, t: real)
      requires Valid() && NotBefore(limiter.State(), now)
      modifies this, cache, limiter
      ensures Valid() && now <= t && NotBefore(limiter.State(), t)
      ensures r == PortingFetch(old(cache.entries), phoneNumber, now)
      ensures Effects(old(cache.entries), old(limiter.State()), old(dispatched), cache.entries, limiter.State(), dispatched,
                      PortingRequest(phoneNumber), Some(PortingKey(phoneNumber)), PortingTtl, now, t, upstream(PortingRequest(phoneNumber)))
    {
      var response;
      response, t := MakeRequest(PortingRequest(phoneNumber), Some(PortingKey(phoneNumber)), PortingTtl, now);
      r := Decoded(response, codec.porting);
    }

    /** The decoding loop of the list getters; None is an exception escaping. */
    static method DecodeItems<T>(items: seq<Json>, decode: Json -> Option<T>) returns (r: Option<seq<T>>)
      ensures r == DecodeAll(items, decode)
    {
      var decoded: seq<T> := [];
      var k := 0;
      while k < |items|
        invariant 0 <= k <= |items|
        invariant DecodeAll(items[..k], decode) == Some(decoded)
      {
        assert items[..k + 1][..k] == items[..k];
        var item := decode(items[k]);
        if item.None? {
          return None;
        }
        decoded := decoded + [item.value];
        k := k + 1;
      }
      assert items[..k] == items;
      return Some(decoded);
    }

    /** None means an exception escapes; an API error gives the empty list. */
    method GetChildAccounts(parentId: string, now: real) returns (r: Option<seq<AccountRecord>>, t: real)
      requires Valid() && NotBefore(limiter.State(), now)
      modifies this, cache, limiter
      ensures Valid() && now <= t && NotBefore(limiter.State(), t)
      ensures r == ListOf(Response(old(cache.entries), ChildrenRequest(parentId), Some(ChildrenKey(parentId)), now,
                                   upstream(ChildrenRequest(parentId))), "accounts", codec.account)
      ensures Effects(old(cache.entries), old(limiter.State()), old(dispatched), cache.entries, limiter.State(), dispatched,
                      ChildrenRequest(parentId), Some(ChildrenKey(parentId)), ChildrenTtl, now, t, upstream(ChildrenRequest(parentId)))
    {
      var response;
      response, t := MakeRequest(ChildrenRequest(parentId), Some(ChildrenKey(parentId)), ChildrenTtl, now);
      if response.Err? {
        return Some([]), t;
      }
      var items := ItemsOf(response.value, "accounts");
      if items.None? {
        return None, t;
      }
      r := DecodeItems(items.value, codec.account);
    }

    method GetUsageData(accountId: string, usageType: UsageDataType, start: string, end: string, now: real)
      returns (r: Option<seq<UsageData>>, t: real)
      requires Valid() && NotBefore(limiter.State(), now)
      modifies this, cache, limiter
      ensures Valid() && now <= t && NotBefore(limiter.State(), t)
      ensures r == UsageFetch(old(cache.entries), accountId, usageType, start, end, now)
      ensures var req := UsageRequest(accountId, usageType, start, end);
              Effects(old(cache.entries), old(limiter.State()), old(dispatched), cache.entries, limiter.State(), dispatched,
                      req, Some(UsageKey(accountId, usageType, start, end)), UsageTtl, now, t, upstream(req))
    {
      var req := UsageRequest(accountId, usageType, start, end);
      var response;
      response, t := MakeRequest(req, Some(UsageKey(accountId, usageType, start, end)), UsageTtl, now);
      if response.Err? {
        return Some([]), t;
      }
      var items := ItemsOf(response.value, "usage");
      if items.None? {
        return None, t;
      }
      r := DecodeItems(items.value, codec.usage);
    }

    /** The account getter as a function of the cache, the id and the clock. */
    function AccountFetcher(): Fetcher<AccountRecord> {
      (c, accountId, now) => AccountFetch(c, accountId, now)
    }

    function FaxUsageFetcher(start: string, end: string): Fetcher<FaxUsageRecord> {
      (c, accountId, now) => FaxUsageFetch(c, accountId, start, end, now)
    }

    function PortingFetcher(): Fetcher<PortingRecord> {
      (c, phoneNumber, now) => PortingFetch(c, phoneNumber, now)
    }

    function UsageFetcher(usageType: UsageDataType, start: string, end: string): ListFetcher<UsageData> {
      (c, accountId, now) => UsageFetch(c, accountId, usageType, start, end, now)
    }

    /** One batch: a getter call per item, in order, each starting where the
        one before left off, keeping the records found. */
    method FetchAccountChunk(batchIds: seq<string>, now: real)
      returns (found: seq<AccountRecord>, t: real, ghost outcomes: seq<Fetched<AccountRecord>>, ghost trace: seq<Snapshot>)
      requires Valid() && NotBefore(limiter.State(), now)
      modifies this, cache, limiter
      ensures Valid() && now <= t && NotBefore(limiter.State(), t)
      ensures InOrder(upstream, AccountCall, AccountFetcher(), batchIds, outcomes, trace)
      ensures trace[0] == old(StateAt(now)) && trace[|batchIds|] == StateAt(t)
      ensures found == Collect(outcomes)
    {
      found, t := [], now;
      ghost var initial := StateAt(now);
      outcomes, trace := [], [initial];
      var j := 0;
      while j < |batchIds|
        invariant 0 <= j <= |batchIds|
        invariant Valid() && now <= t && NotBefore(limiter.State(), t)
        invariant InOrder(upstream, AccountCall, AccountFetcher(), batchIds[..j], outcomes, trace)
        invariant trace[0] == initial && trace[j] == StateAt(t)
        invariant found == Collect(outcomes)
      {
        var result, t' := GetAccount(batchIds[j], t);
        InOrderSnoc(upstream, AccountCall, AccountFetcher(), batchIds, j, outcomes, trace, result, StateAt(t'));
        CollectSnoc(outcomes, result);
        outcomes, trace := outcomes + [result], trace + [StateAt(t')];
        found := found + CollectOne(result);
        t := t';
        j := j + 1;
      }
      assert batchIds[..j] == batchIds;
    }

    /** One batch: a getter call per item, in order, each starting where the
        one before left off, keeping the records found. */
    method FetchFaxUsageChunk(batchIds: seq<string>, start: string, end: string, now: real)
      returns (found: seq<FaxUsageRecord>, t: real, ghost outcomes: seq<Fetched<FaxUsageRecord>>, ghost trace: seq<Snapshot>)
      requires Valid() && NotBefore(limiter.State(), now)
      modifies this, cache, limiter
      ensures Valid() && now <= t && NotBefore(limiter.State(), t)
      ensures InOrder(upstream, FaxUsageCall(start, end), FaxUsageFetcher(start, end), batchIds, outcomes, trace)
      ensures trace[0] == old(StateAt(now)) && trace[|batchIds|] == StateAt(t)
      ensures found == Collect(outcomes)
    {
      found, t := [], now;
      ghost var initial := StateAt(now);
      outcomes, trace := [], [initial];
      var j := 0;
      while j < |batchIds|
        invariant 0 <= j <= |batchIds|
        invariant Valid() && now <= t && NotBefore(limiter.State(), t)
        invariant InOrder(upstream, FaxUsageCall(start, end), FaxUsageFetcher(start, end), batchIds[..j], outcomes, trace)
        invariant trace[0] == initial && trace[j] == StateAt(t)
        invariant found == Collect(outcomes)
      {
        var result, t' := GetFaxUsage(batchIds[j], start, end, t);
        InOrderSnoc(upstream, FaxUsageCall(start, end), FaxUsageFetcher(start, end), batchIds, j, outcomes, trace, result, StateAt(t'));
        CollectSnoc(outcomes, result);
        outcomes, trace := outcomes + [result], trace + [StateAt(t')];
        found := found + CollectOne(result);
        t := t';
        j := j + 1;
      }
      assert batchIds[..j] == batchIds;
    }

    /** One batch: a getter call per item, in order, each starting where the
        one before left off, keeping the records found. */
    method FetchPortingChunk(batchNumbers: seq<string>, now: real)
      returns (found: seq<PortingRecord>, t: real, ghost outcomes: seq<Fetched<PortingRecord>>, ghost trace: seq<Snapshot>)
      requires Valid() && NotBefore(limiter.State(), now)
      modifies this, cache, limiter
      ensures Valid() && now <= t && NotBefore(limiter.State(), t)
      ensures InOrder(upstream, PortingCall, PortingFetcher(), batchNumbers, outcomes, trace)
      ensures trace[0] == old(StateAt(now)) && trace[|batchNumbers|] == StateAt(t)
      ensures found == Collect(outcomes)
    {
      found, t := [], now;
      ghost var initial := StateAt(now);
      outcomes, trace := [], [initial];
      var j := 0;
      while j < |batchNumbers|
        invariant 0 <= j <= |batchNumbers|
        invariant Valid() && now <= t && NotBefore(limiter.State(), t)
        invariant InOrder(upstream, PortingCall, PortingFetcher(), batchNumbers[..j], outcomes, trace)
        invariant trace[0] == initial && trace[j] == StateAt(t)
        invariant found == Collect(outcomes)
      {
        var result, t' := GetPortingStatus(batchNumbers[j], t);
        InOrderSnoc(upstream, PortingCall, PortingFetcher(), batchNumbers, j, outcomes, trace, result, StateAt(t'));
        CollectSnoc(outcomes, result);
        outcomes, trace := outcomes + [result], trace + [StateAt(t')];
        found := found + CollectOne(result);
        t := t';
        j := j + 1;
      }
      assert batchNumbers[..j] == batchNumbers;
    }

    /** Fetches the items chunk by chunk, one getter call per item in input
        order, and keeps the records found. The ghost results say which
        chunks were formed, the outcome of each item's call, and the state
        each call started from. */
    method GetAccountsBatch(accountIds: seq<string>, now: real)
      returns (accounts: seq<AccountRecord>, t: real, ghost batches: seq<seq<string>>,
               ghost outcomes: seq<Fetched<AccountRecord>>, ghost trace: seq<Snapshot>)
      requires Valid() && NotBefore(limiter.State(), now)
      modifies this, cache, limiter
      ensures Valid() && now <= t && NotBefore(limiter.State(), t)
      ensures batches == Chunks(accountIds, batchSize)
      ensures InOrder(upstream, AccountCall, AccountFetcher(), accountIds, outcomes, trace)
      ensures trace[0] == old(StateAt(now)) && trace[|accountIds|] == StateAt(t)
      ensures accounts == Collect(outcomes)
    {
      accounts, t := [], now;
      ghost var initial := StateAt(now);
      batches, outcomes, trace := [], [], [initial];
      var i := 0;
      while i < |accountIds|
        invariant 0 <= i <= |accountIds|
        invariant Valid() && now <= t && NotBefore(limiter.State(), t)
        invariant ChunkedUpTo(accountIds, batchSize, i, batches)
        invariant InOrder(upstream, AccountCall, AccountFetcher(), accountIds[..i], outcomes, trace)
        invariant trace[0] == initial && trace[i] == StateAt(t)
        invariant accounts == Collect(outcomes)
        decreases |accountIds| - i
      {
        var stop := if i + batchSize <= |accountIds| then i + batchSize else |accountIds|;
        var chunk := accountIds[i..stop];
        var chunkFound, t';
        ghost var chunkOutcomes, chunkTrace;
        chunkFound, t', chunkOutcomes, chunkTrace := FetchAccountChunk(chunk, t);
        BatchStep(upstream, AccountCall, AccountFetcher(), accountIds, i, stop, outcomes, trace, chunkOutcomes, chunkTrace);
        ChunksStep(accountIds, batchSize, i, stop, batches);
        accounts, t := accounts + chunkFound, t';
        batches, outcomes, trace := batches + [chunk], outcomes + chunkOutcomes, trace + chunkTrace[1..];
        i := stop;
      }
      ChunksDone(accountIds, batchSize, batches);
      assert accountIds[..i] == accountIds;
    }

    method SyncFaxUsage(accountIds: seq<string>, start: string, end: string, now: real)
      returns (usageRecords: seq<FaxUsageRecord>, t: real, ghost batches: seq<seq<string>>,
               ghost outcomes: seq<Fetched<FaxUsageRecord>>, ghost trace: seq<Snapshot>)
      requires Valid() && NotBefore(limiter.State(), now)
      modifies this, cache, limiter
      ensures Valid() && now <= t && NotBefore(limiter.State(), t)
      ensures batches == Chunks(accountIds, batchSize)
      ensures InOrder(upstream, FaxUsageCall(start, end), FaxUsageFetcher(start, end), accountIds, outcomes, trace)
      ensures trace[0] == old(StateAt(now)) && trace[|accountIds|] == StateAt(t)
      ensures usageRecords == Collect(outcomes)
    {
      ghost var call, fetch := FaxUsageCall(start, end), FaxUsageFetcher(start, end);
      usageRecords, t := [], now;
      ghost var initial := StateAt(now);
      batches, outcomes, trace := [], [], [initial];
      var i := 0;
      while i < |accountIds|
        invariant 0 <= i <= |accountIds|
        invariant Valid() && now <= t && NotBefore(limiter.State(), t)
        invariant ChunkedUpTo(accountIds, batchSize, i, batches)
        invariant InOrder(upstream, call, fetch, accountIds[..i], outcomes, trace)
        invariant trace[0] == initial && trace[i] == StateAt(t)
        invariant usageRecords == Collect(outcomes)
        decreases |accountIds| - i
      {
        var stop := if i + batchSize <= |accountIds| then i + batchSize else |accountIds|;
        var chunk := accountIds[i..stop];
        var chunkFound, t';
        ghost var chunkOutcomes, chunkTrace;
        chunkFound, t', chunkOutcomes, chunkTrace := FetchFaxUsageChunk(chunk, start, end, t);
        BatchStep(upstream, call, fetch, accountIds, i, stop, outcomes, trace, chunkOutcomes, chunkTrace);
        ChunksStep(accountIds, batchSize, i, stop, batches);
        usageRecords, t := usageRecords + chunkFound, t';
        batches, outcomes, trace := batches + [chunk], outcomes + chunkOutcomes, trace + chunkTrace[1..];
        i := stop;
      }
      ChunksDone(accountIds, batchSize, batches);
      assert accountIds[..i] == accountIds;
    }

    method BatchPortingStatus(phoneNumbers: seq<string>, now: real)
      returns (portingRecords: seq<PortingRecord>, t: real, ghost batches: seq<seq<string>>,
               ghost outcomes: seq<Fetched<PortingRecord>>, ghost trace: seq<Snapshot>)
      requires Valid() && NotBefore(limiter.State(), now)
      modifies this, cache, limiter
      ensures Valid() && now <= t && NotBefore(limiter.State(), t)
      ensures batches == Chunks(phoneNumbers, batchSize)
      ensures InOrder(upstream, PortingCall, PortingFetcher(), phoneNumbers, outcomes, trace)
      ensures trace[0] == old(StateAt(now)) && trace[|phoneNumbers|] == StateAt(t)
      ensures portingRecords == Collect(outcomes)
    {
      portingRecords, t := [], now;
      ghost var initial := StateAt(now);
      batches, outcomes, trace := [], [], [initial];
      var i := 0;
      while i < |phoneNumbers|
        invariant 0 <= i <= |phoneNumbers|
        invariant Valid() && now <= t && NotBefore(limiter.State(), t)
        invariant ChunkedUpTo(phoneNumbers, batchSize, i, batches)
        invariant InOrder(upstream, PortingCall, PortingFetcher(), phoneNumbers[..i], outcomes, trace)
        invariant trace[0] == initial && trace[i] == StateAt(t)
        invariant portingRecords == Collect(outcomes)
        decreases |phoneNumbers| - i
      {
        var stop := if i + batchSize <= |phoneNumbers| then i + batchSize else |phoneNumbers|;
        var chunk := phoneNumbers[i..stop];
        var chunkFound, t';
        ghost var chunkOutcomes, chunkTrace;
        chunkFound, t', chunkOutcomes, chunkTrace := FetchPortingChunk(chunk, t);
        BatchStep(upstream, PortingCall, PortingFetcher(), phoneNumbers, i, stop, outcomes, trace, chunkOutcomes, chunkTrace);
        ChunksStep(phoneNumbers, batchSize, i, stop, batches);
        portingRecords, t := portingRecords + chunkFound, t';
        batches, outcomes, trace := batches + [chunk], outcomes + chunkOutcomes, trace + chunkTrace[1..];
        i := stop;
      }
      ChunksDone(phoneNumbers, batchSize, batches);
      assert phoneNumbers[..i] == phoneNumbers;
    }

    /** Stamps the account, PUTs it, and on success evicts the key the
        account getter caches under. The stamp stays even when the PUT fails. */
    method UpdateAccount(account: OpenTextAccount, now: real) returns (ok: bool, t: real)
      requires Valid() && NotBefore(limiter.State(), now)
      modifies this, cache, limiter, account
      ensures Valid() && now <= t && NotBefore(limiter.State(), t)
      ensures account.Record() == old(account.Record()).(lastUpdated := now)
      ensures var req := AccountUpdate(account.Record());
              && ok == ResultOf(upstream(req)).Ok?
              && t == Settle(old(limiter.State()), 1, now).1
              && limiter.State() == Taken(Settle(old(limiter.State()), 1, now).0, 1)
              && dispatched == old(dispatched) + [req]
              && cache.entries == if ok then old(cache.entries) - {AccountKey(account.accountId)} else old(cache.entries)
    {
      account.lastUpdated := now;
      var req := AccountUpdate(account.Record());
      var response;
      response, t := MakeRequest(req, None, 300, now);
      if response.Err? {
        return false, t;
      }
      var _ := cache.Delete(AccountKey(account.accountId));
      return true, t;
    }

    /** PUTs the port and on success evicts the key the porting getter caches
        under. */
    method UpdatePortingStatus(porting: NumberPorting, now: real) returns (ok: bool, t: real)
      requires Valid() && NotBefore(limiter.State(), now)
      modifies this, cache, limiter
      ensures Valid() && now <= t && NotBefore(limiter.State(), t)
      ensures var req := PortingUpdate(porting.Record());
              && ok == ResultOf(upstream(req)).Ok?
              && t == Settle(old(limiter.State()), 1, now).1
              && limiter.State() == Taken(Settle(old(limiter.State()), 1, now).0, 1)
              && dispatched == old(dispatched) + [req]
              && cache.entries == if ok then old(cache.entries) - {PortingKey(porting.phoneNumber)} else old(cache.entries)
    {
      var req := PortingUpdate(porting.Record());
      var response;
      response, t := MakeRequest(req, None, 300, now);
      if response.Err? {
        return false, t;
      }
      var _ := cache.Delete(PortingKey(porting.phoneNumber));
      return true, t;
    }

    /** Fetches each account's usage in turn and aggregates it; None means an
        exception escaped from one of the fetches. `lists[k]` is what the k-th
        fetch returned and `trace` the state each call started from; on an
        escape the failing call is the last one traced. */
    method AggregateUsage(accountIds: seq<string>, usageType: UsageDataType, start: string, end: string, now: real)
      returns (r: Option<UsageAggregation>, t: real, ghost lists: seq<seq<UsageData>>, ghost trace: seq<Snapshot>)
      requires Valid() && NotBefore(limiter.State(), now)
      modifies this, cache, limiter
      ensures Valid() && now <= t && NotBefore(limiter.State(), t)
      ensures r.Some? ==> |lists| == |accountIds| && |trace| == |lists| + 1
      ensures r.None? ==> |lists| < |accountIds| && |trace| == |lists| + 2
      ensures trace[0] == old(StateAt(now)) && trace[|trace| - 1] == StateAt(t)
      ensures ListedInOrder(upstream, UsageCall(usageType, start, end), UsageFetcher(usageType, start, end),
                            accountIds[..|lists|], lists, trace[..|lists| + 1])
      ensures r.None? ==>
                && Traced(upstream, UsageCall(usageType, start, end), accountIds[..|lists| + 1], trace)
                && UsageFetch(trace[|lists|].cache, accountIds[|lists|], usageType, start, end, trace[|lists|].time).None?
      ensures r.Some? ==> r.value == Aggregate(accountIds, usageType, start, end, Flatten(lists), t)
    {
      var allUsageData: seq<UsageData> := [];
      t := now;
      ghost var initial := StateAt(now);
      lists, trace := [], [initial];
      var i := 0;
      while i < |accountIds|
        invariant 0 <= i <= |accountIds| && |lists| == i
        invariant Valid() && now <= t && NotBefore(limiter.State(), t)
        invariant ListedInOrder(upstream, UsageCall(usageType, start, end), UsageFetcher(usageType, start, end),
                                accountIds[..i], lists, trace)
        invariant trace[0] == initial && trace[i] == StateAt(t)
        invariant allUsageData == Flatten(lists)
      {
        var usageData, t' := GetUsageData(accountIds[i], usageType, start, end, t);
        ghost var next := StateAt(t');
        if usageData.None? {
          TracedSnoc(upstream, UsageCall(usageType, start, end), accountIds, i, trace, next);
          assert (trace + [next])[..i + 1] == trace;
          return None, t', lists, trace + [next];
        }
        ListedInOrderSnoc(upstream, UsageCall(usageType, start, end), UsageFetcher(usageType, start, end),
                          accountIds, i, lists, trace, usageData.value, next);
        FlattenSnoc(lists, usageData.value);
        allUsageData := allUsageData + usageData.value;
        lists, trace := lists + [usageData.value], trace + [next];
        t := t';
        i := i + 1;
      }
      assert accountIds[..i] == accountIds && trace[..i + 1] == trace;
      r := Some(Aggregate(accountIds, usageType, start, end, allUsageData, t));
    }
  }

  lemma {:induction false} FlattenSnoc<T>(ss: seq<seq<T>>, s: seq<T>)
    ensures Flatten(ss + [s]) == Flatten(ss) + s
    decreases |ss|
  {
    if ss == [] {
      assert Flatten([s]) == s + Flatten([s][1..]);
    } else {
      assert (ss + [s])[1..] == ss[1..] + [s];
      FlattenSnoc(ss[1..], s);
    }
  }
}
