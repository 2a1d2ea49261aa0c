/** TargetdClient: builds a JSON-RPC 2.0 request per call, posts it to the
    daemon, checks the reply against the request, and on top of that offers
    one method per remote procedure plus LUN auto-assignment on export
    creation. The HTTP exchange and uuid4() are the `Network` below. */
module Client {
  import opened Exceptions
  import opened Json
  import opened Rpc

  /** The decoded JSON object of an HTTP answer. A field is None when its key
      is missing from the object; `result` is whatever JSON value the daemon
      sent (null for the calls that return nothing). */
  datatype Response = Response(id: Option<int>, error: Option<Value>, result: Option<Value>)

  /** The body of an HTTP answer: a JSON object, a JSON document of another
      kind (null, a number, a string or a list), or no JSON at all. */
  datatype Body = Envelope(response: Response) | NotObject | NotJson

  /** What one HTTP POST yields: no answer at all, or a status and a body. */
  datatype Exchange = NoAnswer | Answered(status: int, body: Body)

  /** The JSON document posted for one call. */
  datatype Payload = Payload(jsonrpc: string, id: int, methodName: string, params: Params)

  /** One `requests.post`: the URL, the basic-auth pair, whether the TLS
      certificate is verified, and the JSON payload. */
  datatype Post = Post(url: string, user: string, password: string, verify: bool, payload: Payload)

  /** `raise_for_status` raises for client and server errors. */
  predicate HttpFailed(status: int) { 400 <= status < 600 }

  /** The exchange produced a decoded envelope that `request` goes on to check. */
  predicate Delivered(e: Exchange) {
    e.Answered? && !HttpFailed(e.status) && e.body.Envelope?
  }

  function MismatchMessage(expected: int, got: int): string {
    "expected request id " + Decimal(expected) + ", got " + Decimal(got)
  }

  /** The error object carries an int code and a string message. */
  predicate WellFormedError(error: Value) {
    error.JObject? && "code" in error.fields && "message" in error.fields
    && error.fields["code"].JInt? && error.fields["message"].JStr?
  }

  /** `raise TargetdException(error["code"], error["message"])`. Indexing a
      value that is not a dict, or a dict without the key, fails in Python
      itself. */
  function RaiseFrom(error: Value): (o: Outcome<Value>)
    ensures !o.Ok?
    ensures WellFormedError(error) <==> o.Raised?
    ensures o.Raised? ==> o.error == TargetdException(error.fields["code"].i, error.fields["message"].s)
    // `error["code"]` is looked up before `error["message"]`.
    ensures !error.JObject? ==> o == Fault(TypeError)
    ensures error.JObject? && "code" !in error.fields ==> o == Fault(KeyError("code"))
    ensures error.JObject? && "code" in error.fields && "message" !in error.fields ==> o == Fault(KeyError("message"))
  {
    match error
    case JObject(f) =>
      if "code" !in f then Fault(KeyError("code"))
      else if "message" !in f then Fault(KeyError("message"))
      else if f["code"].JInt? && f["message"].JStr? then Raised(TargetdException(f["code"].i, f["message"].s))
      else Fault(TypeError)
    case _ => Fault(TypeError)
  }

  /** What `request` makes of the exchange for a request with id `requestId`:
      the transport and decoding failures first, then the id check, then the
      error check, and only then the result. */
  function Validate(requestId: int, e: Exchange): (o: Outcome<Value>)
    // Transport failures surface as they are.
    ensures e == NoAnswer ==> o == Fault(ConnectionError)
    ensures e.Answered? && HttpFailed(e.status) ==> o == Fault(HttpError(e.status))
    ensures e.Answered? && !HttpFailed(e.status) && e.body == NotJson ==> o == Fault(JsonDecodeError)
    // `response["id"]` on a JSON document that is not an object.
    ensures e.Answered? && !HttpFailed(e.status) && e.body == NotObject ==> o == Fault(TypeError)
    ensures Delivered(e) && e.body.response.id.None? ==> o == Fault(KeyError("id"))
    // A reply to another request is refused with INVALID, whatever else it carries.
    ensures Delivered(e) && e.body.response.id.Some? && e.body.response.id.value != requestId ==>
              o == Raised(TargetdException(INVALID, MismatchMessage(requestId, e.body.response.id.value)))
    // A matching reply with a truthy error raises the server's code and message unchanged.
    ensures Delivered(e) && e.body.response.id == Some(requestId) && e.body.response.error.Some?
            && Truthy(e.body.response.error.value) && WellFormedError(e.body.response.error.value) ==>
              o == Raised(TargetdException(e.body.response.error.value.fields["code"].i,
                                           e.body.response.error.value.fields["message"].s))
    // The result comes back exactly when the reply matches and carries no truthy error.
    ensures o.Ok? <==> Delivered(e) && e.body.response.id == Some(requestId)
                       && !(e.body.response.error.Some? && Truthy(e.body.response.error.value))
                       && e.body.response.result.Some?
    ensures o.Ok? ==> o.value == e.body.response.result.value
    // A TargetdException is either the id check's or the server's.
    ensures o.Raised? ==> Delivered(e) && e.body.response.id.Some?
                          && (e.body.response.id.value != requestId
                              || (e.body.response.error.Some? && WellFormedError(e.body.response.error.value)
                                  && o.error.code == e.body.response.error.value.fields["code"].i))
  {
    match e
    case NoAnswer => Fault(ConnectionError)
    case Answered(status, body) =>
      if HttpFailed(status) then Fault(HttpError(status))
      else match body
        case NotJson => Fault(JsonDecodeError)
        case NotObject => Fault(TypeError)
        case Envelope(r) =>
          if r.id.None? then Fault(KeyError("id"))
          else if r.id.value != requestId then
            Raised(TargetdException(INVALID, MismatchMessage(requestId, r.id.value)))
          else if r.error.Some? && Truthy(r.error.value) then RaiseFrom(r.error.value)
          else if r.result.None? then Fault(KeyError("result"))
          else Ok(r.result.value)
  }

  /** The id-mismatch message names both ids: each can be read back from it. */
  lemma MismatchMessageNamesBothIds(expected: int, got: int)
    ensures var m := MismatchMessage(expected, got);
            var head := "expected request id ";
            var middle := ", got ";
            var e := Decimal(expected);
            m == head + e + middle + Decimal(got)
            && ParseInt(m[|head|..|head| + |e|]) == Some(expected)
            && ParseInt(m[|head| + |e| + |middle|..]) == Some(got)
  {
    var head := "expected request id ";
    var middle := ", got ";
    var e := Decimal(expected);
    var m := MismatchMessage(expected, got);
    assert m[|head|..|head| + |e|] == e;
    assert m[|head| + |e| + |middle|..] == Decimal(got);
    DecimalRoundTrip(expected);
    DecimalRoundTrip(got);
  }

  /** A falsy error (null, false, 0, "", [] or {}) is ignored, as an absent one. */
  lemma FalsyErrorIsIgnored(requestId: int, status: int, error: Value, result: Value)
    requires !HttpFailed(status) && !Truthy(error)
    ensures Validate(requestId, Answered(status, Envelope(Response(Some(requestId), Some(error), Some(result)))))
            == Ok(result)
    ensures Validate(requestId, Answered(status, Envelope(Response(Some(requestId), None, Some(result)))))
            == Ok(result)
  {
  }

  /** The wire: uuid4() and the daemon, as seen from the client. The k-th
      call draws `uuid(k)` as its id and gets `answer(k)` back. `sent`
      records every post, in order. */
  class Network {
    const uuid: nat -> int
    const answer: nat -> Exchange
    var calls: nat
    ghost var sent: seq<Post>

    constructor (uuid: nat -> int, answer: nat -> Exchange)
      ensures this.uuid == uuid && this.answer == answer
      ensures calls == 0 && sent == []
    {
      this.uuid := uuid;
      this.answer := answer;
      calls := 0;
      sent := [];
    }

    /** What `request` returns for the k-th call. */
    function Reply(k: nat): Outcome<Value> {
      Validate(uuid(k), answer(k))
    }

    /** `int(uuid.uuid4())` */
    method NextId() returns (id: int)
      ensures id == uuid(calls)
    {
      id := uuid(calls);
    }

    /** `requests.post(...)` */
    method Send(p: Post) returns (e: Exchange)
      modifies this
      ensures calls == old(calls) + 1 && sent == old(sent) + [p]
      ensures e == answer(old(calls))
    {
      e := answer(calls);
      sent := sent + [p];
      calls := calls + 1;
    }
  }

  /** `for x in result`, where the loop body indexes every element with a
      string key: a list yields its elements; an empty string or object
      yields nothing; a non-empty string or object yields strings, on which
      the first lookup raises TypeError; null, a boolean or a number is not
      iterable at all. */
  function Elements(result: Value): (o: Outcome<seq<Value>>)
    ensures o.Ok? <==> result.JList? || result == JStr([]) || result == JObject(map[])
    ensures result.JList? ==> o == Ok(result.items)
    ensures o.Ok? && !result.JList? ==> o.value == []
    ensures !o.Ok? ==> o == Fault(TypeError)
  {
    match result
    case JList(items) => Ok(items)
    case JStr(s) => if s == [] then Ok([]) else Fault(TypeError)
    case JObject(f) => if f == map[] then Ok([]) else Fault(TypeError)
    case _ => Fault(TypeError)
  }

  /** A call's outcome, iterated as `Elements` does. */
  function Iterated(r: Outcome<Value>): Outcome<seq<Value>> {
    if r.Ok? then Elements(r.value) else r.Propagate()
  }

  /** `export["pool"] == pool and export["vol_name"] == vol and
      export["initiator_wwn"] == initiator_wwn`, left to right, stopping at
      the first false comparison; a missing key raises KeyError, and an
      element that is not an object raises TypeError at the first lookup. */
  function MatchesExport(x: Value, pool: string, vol: string, wwn: string): (o: Outcome<bool>)
    ensures o == Ok(true) <==> x.JObject? && "pool" in x.fields && x.fields["pool"] == JStr(pool)
                               && "vol_name" in x.fields && x.fields["vol_name"] == JStr(vol)
                               && "initiator_wwn" in x.fields && x.fields["initiator_wwn"] == JStr(wwn)
    ensures !x.JObject? ==> o == Fault(TypeError)
    // The first missing key is the one reported; a differing value stops the scan.
    ensures x.JObject? && "pool" !in x.fields ==> o == Fault(KeyError("pool"))
    ensures x.JObject? && "pool" in x.fields && x.fields["pool"] != JStr(pool) ==> o == Ok(false)
    ensures x.JObject? && "pool" in x.fields && x.fields["pool"] == JStr(pool) && "vol_name" !in x.fields ==>
              o == Fault(KeyError("vol_name"))
    ensures (x.JObject? && "pool" in x.fields && x.fields["pool"] == JStr(pool) && "vol_name" in x.fields
             && x.fields["vol_name"] != JStr(vol)) ==> o == Ok(false)
    ensures (x.JObject? && "pool" in x.fields && x.fields["pool"] == JStr(pool) && "vol_name" in x.fields
             && x.fields["vol_name"] == JStr(vol) && "initiator_wwn" !in x.fields) ==> o == Fault(KeyError("initiator_wwn"))
    ensures (x.JObject? && "pool" in x.fields && x.fields["pool"] == JStr(pool) && "vol_name" in x.fields
             && x.fields["vol_name"] == JStr(vol) && "initiator_wwn" in x.fields
             && x.fields["initiator_wwn"] != JStr(wwn)) ==> o == Ok(false)
    ensures !o.Raised?
  {
    match x
    case JObject(f) =>
      if "pool" !in f then Fault(KeyError("pool"))
      else if f["pool"] != JStr(pool) then Ok(false)
      else if "vol_name" !in f then Fault(KeyError("vol_name"))
      else if f["vol_name"] != JStr(vol) then Ok(false)
      else if "initiator_wwn" !in f then Fault(KeyError("initiator_wwn"))
      else Ok(f["initiator_wwn"] == JStr(wwn))
    case _ => Fault(TypeError)
  }

  /** `next(filter(matches, exports), None)`: the position of the first
      matching export. The scan is lazy: exports after the first match are
      never looked at, and an export that raises before any match ends it. */
  function FindExport(exports: seq<Value>, pool: string, vol: string, wwn: string): (o: Outcome<Option<nat>>)
    ensures !o.Raised?
    ensures o.Ok? && o.value.Some? ==>
              o.value.value < |exports| && MatchesExport(exports[o.value.value], pool, vol, wwn) == Ok(true)
              && forall j :: 0 <= j < o.value.value ==> MatchesExport(exports[j], pool, vol, wwn) == Ok(false)
    ensures o == Ok(None) <==> forall j :: 0 <= j < |exports| ==> MatchesExport(exports[j], pool, vol, wwn) == Ok(false)
    ensures o.Fault? ==> exists i :: 0 <= i < |exports| && MatchesExport(exports[i], pool, vol, wwn) == Fault(o.fault)
                                     && forall j :: 0 <= j < i ==> MatchesExport(exports[j], pool, vol, wwn) == Ok(false)
    decreases |exports|
  {
    if exports == [] then Ok(None)
    else
      var here := MatchesExport(exports[0], pool, vol, wwn);
      if here.Fault? then Fault(here.fault)
      else if here.value then Ok(Some(0))
      else
        var rest := FindExport(exports[1..], pool, vol, wwn);
        if rest.Ok? && rest.value.Some? then Ok(Some(rest.value.value + 1)) else rest
  }

  /** `int(export["lun"])` */
  function LunOf(x: Value): (o: Outcome<int>)
    ensures !x.JObject? ==> o == Fault(TypeError)
    ensures x.JObject? && "lun" !in x.fields ==> o == Fault(KeyError("lun"))
    ensures x.JObject? && "lun" in x.fields && x.fields["lun"].JInt? ==> o == Ok(x.fields["lun"].i)
    ensures !o.Raised?
  {
    match x
    case JObject(f) => if "lun" in f then ToInt(f["lun"]) else Fault(KeyError("lun"))
    case _ => Fault(TypeError)
  }

  /** A value Python can put into a set (lists and dicts are unhashable). */
  predicate Hashable(v: Value) { !v.JList? && !v.JObject? }

  /** `[export["lun"] for export in exports]`, as the set built from it sees
      them: the first export that is not an object, has no "lun" key or has
      an unhashable one raises. */
  function LunValues(exports: seq<Value>): (o: Outcome<seq<Value>>)
    ensures !o.Raised?
    ensures o.Ok? <==> forall x :: x in exports ==> x.JObject? && "lun" in x.fields && Hashable(x.fields["lun"])
    ensures o.Ok? ==> |o.value| == |exports| && forall i :: 0 <= i < |exports| ==> o.value[i] == exports[i].fields["lun"]
    ensures o.Fault? ==> o.fault == TypeError || o.fault == KeyError("lun")
  {
    if exports == [] then Ok([])
    else if !exports[0].JObject? then Fault(TypeError)
    else if "lun" !in exports[0].fields then Fault(KeyError("lun"))
    else if !Hashable(exports[0].fields["lun"]) then Fault(TypeError)
    else
      var rest := LunValues(exports[1..]);
      if rest.Ok? then Ok([exports[0].fields["lun"]] + rest.value) else rest
  }

  /** `n in set(luns)`: some LUN compares equal to the int `n`. */
  predicate InUse(luns: seq<Value>, n: int) {
    exists v :: v in luns && IntView(v) == Some(n)
  }

  /** `n` is the first free LUN: not in use, and every smaller natural number is. */
  predicate IsLeastFree(luns: seq<Value>, n: nat) {
    !InUse(luns, n) && forall k :: 0 <= k < n ==> InUse(luns, k)
  }

  /** The ints the LUN values stand for, as a set. */
  function LunSet(luns: seq<Value>): (s: set<int>)
    ensures forall n :: n in s <==> InUse(luns, n)
    ensures |s| <= |luns|
  {
    if luns == [] then {}
    else
      var rest := LunSet(luns[1..]);
      assert forall n :: InUse(luns, n) <==> InUse(luns[1..], n) || IntView(luns[0]) == Some(n) by {
        forall n ensures InUse(luns, n) <==> InUse(luns[1..], n) || IntView(luns[0]) == Some(n) {
          if InUse(luns, n) {
            var v :| v in luns && IntView(v) == Some(n);
            if v != luns[0] {
              assert v in luns[1..];
            }
          }
        }
      }
      match IntView(luns[0])
      case Some(n) => rest + {n}
      case None => rest
  }

  /** If 0, 1, ..., n - 1 all lie in `s`, then `s` has at least n elements. */
  lemma {:induction false} PrefixInSet(s: set<int>, n: nat)
    requires forall k :: 0 <= k < n ==> k in s
    ensures n <= |s|
  {
    if n > 0 {
      PrefixInSet(s - {n - 1}, n - 1);
    }
  }

  /** The loop of `get_first_available_lun`: count up from 0 until a LUN is
      not in use. */
  method FirstFreeLun(luns: seq<Value>) returns (i: nat)
    ensures IsLeastFree(luns, i)
    ensures i <= |luns|
  {
    var existing := LunSet(luns);
    i := 0;
    while i in existing
      invariant forall k :: 0 <= k < i ==> k in existing
      invariant i <= |existing|
      decreases |existing| - i
    {
      PrefixInSet(existing, i + 1);
      i := i + 1;
    }
  }

  /** With no exports the first LUN is 0; with LUNs {0, 1, 3, 4} it is 2;
      with 0 .. n - 1 all taken it is n. */
  lemma LeastFreeExamples(n: nat)
    ensures IsLeastFree([], 0)
    ensures IsLeastFree([JInt(0), JInt(1), JInt(3), JInt(4)], 2)
    ensures IsLeastFree(seq(n, k => JInt(k)), n)
  {
    var luns := [JInt(0), JInt(1), JInt(3), JInt(4)];
    assert IntView(luns[0]) == Some(0) && IntView(luns[1]) == Some(1);
    var taken := seq(n, k => JInt(k));
    forall k | 0 <= k < n ensures InUse(taken, k) {
      assert IntView(taken[k]) == Some(k);
    }
  }

  /** At most one number is the first free LUN. */
  lemma LeastFreeUnique(luns: seq<Value>, a: nat, b: nat)
    requires IsLeastFree(luns, a) && IsLeastFree(luns, b)
    ensures a == b
  {
  }

  class TargetdClient {
    const url: string
    const user: string
    const password: string
    const insecureSkipVerify: bool

    constructor (url: string, user: string, password: string, insecureSkipVerify: bool := false)
      ensures this.url == url && this.user == user && this.password == password
      ensures this.insecureSkipVerify == insecureSkipVerify
    {
      this.url := url;
      this.user := user;
      this.password := password;
      this.insecureSkipVerify := insecureSkipVerify;
    }

    /** The post that sends `c` under request id `id`. */
    function PostOf(id: int, c: Call): Post {
      Post(url + "/targetrpc", user, password, !insecureSkipVerify, Payload("2.0", id, MethodName(c), ParamsOf(c)))
    }

    /** The post of the k-th call on `net`. */
    function PostAt(net: Network, k: nat, c: Call): Post {
      PostOf(net.uuid(k), c)
    }

    /** One call went out on `net`, carrying `c`. */
    twostate predicate Issued(net: Network, c: Call)
      reads net
    {
      net.calls == old(net.calls) + 1 && net.sent == old(net.sent) + [PostAt(net, old(net.calls), c)]
    }

    /** `request(method, params)`: one post, then the checks of `Validate`. */
    method Request(net: Network, c: Call) returns (o: Outcome<Value>)
      modifies net
      ensures Issued(net, c)
      ensures o == net.Reply(old(net.calls))
    {
      var requestId := net.NextId();
      var payload := Payload("2.0", requestId, MethodName(c), ParamsOf(c));
      var exchange := net.Send(Post(url + "/targetrpc", user, password, !insecureSkipVerify, payload));
      o := Validate(requestId, exchange);
    }

    /** A facade method that returns the call's result. */
    method List(net: Network, c: Call) returns (o: Outcome<Value>)
      modifies net
      ensures Issued(net, c)
      ensures o == net.Reply(old(net.calls))
    {
      o := Request(net, c);
    }

    /** A facade method that returns None: only the failure matters. */
    method Do(net: Network, c: Call) returns (o: Outcome<()>)
      modifies net
      ensures Issued(net, c)
      ensures o.Ok? <==> net.Reply(old(net.calls)).Ok?
      ensures !o.Ok? ==> o == net.Reply(old(net.calls)).Propagate()
    {
      var r := Request(net, c);
      o := if r.Ok? then Ok(()) else r.Propagate();
    }

    /** `get_first_available_lun`: list the exports and return the least
        natural number that no export uses as its LUN. */
    method GetFirstAvailableLun(net: Network) returns (o: Outcome<nat>)
      modifies net
      ensures Issued(net, Call.ExportList)
      ensures var listed := Iterated(net.Reply(old(net.calls)));
              && (!listed.Ok? ==> o == listed.Propagate())
              && (listed.Ok? ==> (o.Ok? <==> LunValues(listed.value).Ok?))
              && (listed.Ok? && !LunValues(listed.value).Ok? ==> o == LunValues(listed.value).Propagate())
              && (o.Ok? ==> listed.Ok? && IsLeastFree(LunValues(listed.value).value, o.value)
                            && o.value <= |listed.value|)
    {
      var reply := Request(net, Call.ExportList);
      var listed := Iterated(reply);
      if !listed.Ok? {
        return listed.Propagate();
      }
      var luns := LunValues(listed.value);
      if !luns.Ok? {
        return luns.Propagate();
      }
      var i := FirstFreeLun(luns.value);
      o := Ok(i);
    }

    /** `export_create(pool, vol, initiator_wwn, lun=None)`.

        The export list is fetched first. If an export of this volume to this
        initiator exists and no LUN was asked for, its LUN is returned and
        nothing else is sent. Otherwise the LUN is the one asked for or, when
        none was, the first free one (a second export list), and
        `export_create` is sent with it. */
    method ExportCreate(net: Network, pool: string, vol: string, wwn: string, lun: Option<int> := None)
      returns (o: Outcome<int>)
      modifies net
      ensures net.calls == old(net.calls) + (|net.sent| - |old(net.sent)|)
      // The listing failed: nothing else is sent.
      ensures var k := old(net.calls); var listed := Iterated(net.Reply(k));
              !listed.Ok? ==>
                o == listed.Propagate() && net.sent == old(net.sent) + [PostAt(net, k, Call.ExportList)]
      // The scan for an existing export failed: nothing else is sent.
      ensures var k := old(net.calls); var listed := Iterated(net.Reply(k));
              listed.Ok? && FindExport(listed.value, pool, vol, wwn).Fault? ==>
                o == FindExport(listed.value, pool, vol, wwn).Propagate()
                && net.sent == old(net.sent) + [PostAt(net, k, Call.ExportList)]
      // Idempotence: an existing export and no LUN asked for returns its LUN,
      // and no export_create is sent.
      ensures var k := old(net.calls); var listed := Iterated(net.Reply(k));
              var found := if listed.Ok? then FindExport(listed.value, pool, vol, wwn) else Ok(None);
              listed.Ok? && found.Ok? && found.value.Some? && lun.None? ==>
                o == LunOf(listed.value[found.value.value])
                && net.sent == old(net.sent) + [PostAt(net, k, Call.ExportList)]
      // An explicit LUN is always sent, whether or not the export exists.
      ensures var k := old(net.calls); var listed := Iterated(net.Reply(k));
              listed.Ok? && FindExport(listed.value, pool, vol, wwn).Ok? && lun.Some? ==>
                net.sent == old(net.sent) + [PostAt(net, k, Call.ExportList),
                                             PostAt(net, k + 1, Call.ExportCreate(pool, vol, wwn, lun.value))]
                && (o.Ok? <==> net.Reply(k + 1).Ok?)
                && (o.Ok? ==> o.value == lun.value)
                && (!o.Ok? ==> o == net.Reply(k + 1).Propagate())
      // No export and no LUN asked for: the first free LUN of a second listing is sent.
      ensures var k := old(net.calls); var listed := Iterated(net.Reply(k));
              listed.Ok? && FindExport(listed.value, pool, vol, wwn) == Ok(None) && lun.None? ==>
                var again := net.Reply(k + 1);
                var luns := if Iterated(again).Ok? then LunValues(Iterated(again).value) else Ok([]);
                && (!Iterated(again).Ok? || !luns.Ok? ==>
                      net.sent == old(net.sent) + [PostAt(net, k, Call.ExportList), PostAt(net, k + 1, Call.ExportList)]
                      && !o.Ok?
                      && o == (if !Iterated(again).Ok? then Iterated(again).Propagate() else luns.Propagate()))
                && (Iterated(again).Ok? && luns.Ok? ==>
                      exists n: nat ::
                        IsLeastFree(luns.value, n) && n <= |Iterated(again).value|
                        && net.sent == old(net.sent) + [PostAt(net, k, Call.ExportList), PostAt(net, k + 1, Call.ExportList),
                                                        PostAt(net, k + 2, Call.ExportCreate(pool, vol, wwn, n))]
                        && (o.Ok? <==> net.Reply(k + 2).Ok?)
                        && (o.Ok? ==> o.value == n)
                        && (!o.Ok? ==> o == net.Reply(k + 2).Propagate()))
    {
      var reply := Request(net, Call.ExportList);
      var listed := Iterated(reply);
      if !listed.Ok? {
        return listed.Propagate();
      }
      var found := FindExport(listed.value, pool, vol, wwn);
      if !found.Ok? {
        return found.Propagate();
      }
      if found.value.Some? && lun.None? {
        return LunOf(listed.value[found.value.value]);
      }
      if lun.None? {
        o := SendAtFirstFreeLun(net, pool, vol, wwn);
      } else {
        o := SendExportCreate(net, pool, vol, wwn, lun.value);
      }
    }

    /** `export_create` without a LUN and without a matching export: list the
        exports again, and send the request with the first free LUN. */
    method SendAtFirstFreeLun(net: Network, pool: string, vol: string, wwn: string) returns (o: Outcome<int>)
      modifies net
      ensures net.calls == old(net.calls) + (|net.sent| - |old(net.sent)|)
      ensures var k := old(net.calls); var listed := Iterated(net.Reply(k));
              var luns := if listed.Ok? then LunValues(listed.value) else Ok([]);
              && (!listed.Ok? || !luns.Ok? ==>
                    net.sent == old(net.sent) + [PostAt(net, k, Call.ExportList)]
                    && o == (if !listed.Ok? then listed.Propagate() else luns.Propagate()))
              && (listed.Ok? && luns.Ok? ==>
                    exists n: nat ::
                      IsLeastFree(luns.value, n) && n <= |listed.value|
                      && net.sent == old(net.sent) + [PostAt(net, k, Call.ExportList),
                                                      PostAt(net, k + 1, Call.ExportCreate(pool, vol, wwn, n))]
                      && (o.Ok? <==> net.Reply(k + 1).Ok?)
                      && (o.Ok? ==> o.value == n)
                      && (!o.Ok? ==> o == net.Reply(k + 1).Propagate()))
    {
      var free := GetFirstAvailableLun(net);
      if !free.Ok? {
        return free.Propagate();
      }
      o := SendExportCreate(net, pool, vol, wwn, free.value);
    }

    /** The final step of `export_create`: send it with the chosen LUN and
        return that LUN. */
    method SendExportCreate(net: Network, pool: string, vol: string, wwn: string, lun: int) returns (o: Outcome<int>)
      modifies net
      ensures Issued(net, Call.ExportCreate(pool, vol, wwn, lun))
      ensures o.Ok? <==> net.Reply(old(net.calls)).Ok?
      ensures o.Ok? ==> o.value == lun
      ensures !o.Ok? ==> o == net.Reply(old(net.calls)).Propagate()
    {
      var created := Request(net, Call.ExportCreate(pool, vol, wwn, lun));
      o := if created.Ok? then Ok(lun) else created.Propagate();
    }

    method PoolList(net: Network) returns (o: Outcome<Value>)
      modifies net
      ensures Issued(net, Call.PoolList) && o == net.Reply(old(net.calls))
    {
      o := List(net, Call.PoolList);
    }

    method VolList(net: Network, pool: string) returns (o: Outcome<Value>)
      modifies net
      ensures Issued(net, Call.VolList(pool)) && o == net.Reply(old(net.calls))
    {
      o := List(net, Call.VolList(pool));
    }

    method VolCreate(net: Network, pool: string, name: string, size: int) returns (o: Outcome<()>)
      modifies net
      ensures Issued(net, Call.VolCreate(pool, name, size))
      ensures o.Ok? <==> net.Reply(old(net.calls)).Ok?
      ensures !o.Ok? ==> o == net.Reply(old(net.calls)).Propagate()
    {
      o := Do(net, Call.VolCreate(pool, name, size));
    }

    method VolDestroy(net: Network, pool: string, name: string) returns (o: Outcome<()>)
      modifies net
      ensures Issued(net, Call.VolDestroy(pool, name))
      ensures o.Ok? <==> net.Reply(old(net.calls)).Ok?
      ensures !o.Ok? ==> o == net.Reply(old(net.calls)).Propagate()
    {
      o := Do(net, Call.VolDestroy(pool, name));
    }

    method VolCopy(net: Network, pool: string, volOrig: string, volNew: string, size: int) returns (o: Outcome<()>)
      modifies net
      ensures Issued(net, Call.VolCopy(pool, volOrig, volNew, size))
      ensures o.Ok? <==> net.Reply(old(net.calls)).Ok?
      ensures !o.Ok? ==> o == net.Reply(old(net.calls)).Propagate()
    {
      o := Do(net, Call.VolCopy(pool, volOrig, volNew, size));
    }

    method ExportList(net: Network) returns (o: Outcome<Value>)
      modifies net
      ensures Issued(net, Call.ExportList) && o == net.Reply(old(net.calls))
    {
      o := List(net, Call.ExportList);
    }

    method ExportDestroy(net: Network, pool: string, vol: string, wwn: string) returns (o: Outcome<()>)
      modifies net
      ensures Issued(net, Call.ExportDestroy(pool, vol, wwn))
      ensures o.Ok? <==> net.Reply(old(net.calls)).Ok?
      ensures !o.Ok? ==> o == net.Reply(old(net.calls)).Propagate()
    {
      o := Do(net, Call.ExportDestroy(pool, vol, wwn));
    }

    method InitiatorSetAuth(net: Network, wwn: string, inUser: string, inPass: string, outUser: string,
                            outPass: string) returns (o: Outcome<()>)
      modifies net
      ensures Issued(net, Call.InitiatorSetAuth(wwn, inUser, inPass, outUser, outPass))
      ensures o.Ok? <==> net.Reply(old(net.calls)).Ok?
      ensures !o.Ok? ==> o == net.Reply(old(net.calls)).Propagate()
    {
      o := Do(net, Call.InitiatorSetAuth(wwn, inUser, inPass, outUser, outPass));
    }

    method InitiatorList(net: Network, standaloneOnly: bool := false) returns (o: Outcome<Value>)
      modifies net
      ensures Issued(net, Call.InitiatorList(standaloneOnly)) && o == net.Reply(old(net.calls))
    {
      o := List(net, Call.InitiatorList(standaloneOnly));
    }

    method AccessGroupList(net: Network) returns (o: Outcome<Value>)
      modifies net
      ensures Issued(net, Call.AccessGroupList) && o == net.Reply(old(net.calls))
    {
      o := List(net, Call.AccessGroupList);
    }

    method AccessGroupCreate(net: Network, agName: string, initId: string, initType: string := "iscsi")
      returns (o: Outcome<()>)
      modifies net
      ensures Issued(net, Call.AccessGroupCreate(agName, initId, initType))
      ensures o.Ok? <==> net.Reply(old(net.calls)).Ok?
      ensures !o.Ok? ==> o == net.Reply(old(net.calls)).Propagate()
    {
      o := Do(net, Call.AccessGroupCreate(agName, initId, initType));
    }

    method AccessGroupDestroy(net: Network, agName: string) returns (o: Outcome<()>)
      modifies net
      ensures Issued(net, Call.AccessGroupDestroy(agName))
      ensures o.Ok? <==> net.Reply(old(net.calls)).Ok?
      ensures !o.Ok? ==> o == net.Reply(old(net.calls)).Propagate()
    {
      o := Do(net, Call.AccessGroupDestroy(agName));
    }

    method AccessGroupInitAdd(net: Network, agName: string, initId: string, initType: string := "iscsi")
      returns (o: Outcome<()>)
      modifies net
      ensures Issued(net, Call.AccessGroupInitAdd(agName, initId, initType))
      ensures o.Ok? <==> net.Reply(old(net.calls)).Ok?
      ensures !o.Ok? ==> o == net.Reply(old(net.calls)).Propagate()
    {
      o := Do(net, Call.AccessGroupInitAdd(agName, initId, initType));
    }

    method AccessGroupInitDel(net: Network, agName: string, initId: string, initType: string := "iscsi")
      returns (o: Outcome<()>)
      modifies net
      ensures Issued(net, Call.AccessGroupInitDel(agName, initId, initType))
      ensures o.Ok? <==> net.Reply(old(net.calls)).Ok?
      ensures !o.Ok? ==> o == net.Reply(old(net.calls)).Propagate()
    {
      o := Do(net, Call.AccessGroupInitDel(agName, initId, initType));
    }

    method AccessGroupMapList(net: Network) returns (o: Outcome<Value>)
      modifies net
      ensures Issued(net, Call.AccessGroupMapList) && o == net.Reply(old(net.calls))
    {
      o := List(net, Call.AccessGroupMapList);
    }

    method AccessGroupMapCreate(net: Network, poolName: string, volName: string, agName: string,
                                hLunId: Option<int> := None) returns (o: Outcome<()>)
      modifies net
      ensures Issued(net, Call.AccessGroupMapCreate(poolName, volName, agName, hLunId))
      ensures o.Ok? <==> net.Reply(old(net.calls)).Ok?
      ensures !o.Ok? ==> o == net.Reply(old(net.calls)).Propagate()
    {
      o := Do(net, Call.AccessGroupMapCreate(poolName, volName, agName, hLunId));
    }

    method AccessGroupMapDestroy(net: Network, poolName: string, volName: string, agName: string)
      returns (o: Outcome<()>)
      modifies net
      ensures Issued(net, Call.AccessGroupMapDestroy(poolName, volName, agName))
      ensures o.Ok? <==> net.Reply(old(net.calls)).Ok?
      ensures !o.Ok? ==> o == net.Reply(old(net.calls)).Propagate()
    {
      o := Do(net, Call.AccessGroupMapDestroy(poolName, volName, agName));
    }

    method FsList(net: Network) returns (o: Outcome<Value>)
      modifies net
      ensures Issued(net, Call.FsList) && o == net.Reply(old(net.calls))
    {
      o := List(net, Call.FsList);
    }

    method FsDestroy(net: Network, uuid: string) returns (o: Outcome<()>)
      modifies net
      ensures Issued(net, Call.FsDestroy(uuid))
      ensures o.Ok? <==> net.Reply(old(net.calls)).Ok?
      ensures !o.Ok? ==> o == net.Reply(old(net.calls)).Propagate()
    {
      o := Do(net, Call.FsDestroy(uuid));
    }

    method FsCreate(net: Network, poolName: string, name: string, sizeBytes: int) returns (o: Outcome<()>)
      modifies net
      ensures Issued(net, Call.FsCreate(poolName, name, sizeBytes))
      ensures o.Ok? <==> net.Reply(old(net.calls)).Ok?
      ensures !o.Ok? ==> o == net.Reply(old(net.calls)).Propagate()
    {
      o := Do(net, Call.FsCreate(poolName, name, sizeBytes));
    }

    method FsClone(net: Network, fsUuid: string, destFsName: string, snapshotId: string) returns (o: Outcome<()>)
      modifies net
      ensures Issued(net, Call.FsClone(fsUuid, destFsName, snapshotId))
      ensures o.Ok? <==> net.Reply(old(net.calls)).Ok?
      ensures !o.Ok? ==> o == net.Reply(old(net.calls)).Propagate()
    {
      o := Do(net, Call.FsClone(fsUuid, destFsName, snapshotId));
    }

    method SsList(net: Network, fsUuid: string) returns (o: Outcome<Value>)
      modifies net
      ensures Issued(net, Call.SsList(fsUuid)) && o == net.Reply(old(net.calls))
    {
      o := List(net, Call.SsList(fsUuid));
    }

    method FsSnapshot(net: Network, fsUuid: string, destSsName: string) returns (o: Outcome<()>)
      modifies net
      ensures Issued(net, Call.FsSnapshot(fsUuid, destSsName))
      ensures o.Ok? <==> net.Reply(old(net.calls)).Ok?
      ensures !o.Ok? ==> o == net.Reply(old(net.calls)).Propagate()
    {
      o := Do(net, Call.FsSnapshot(fsUuid, destSsName));
    }

    method FsSnapshotDelete(net: Network, fsUuid: string, ssUuid: string) returns (o: Outcome<()>)
      modifies net
      ensures Issued(net, Call.FsSnapshotDelete(fsUuid, ssUuid))
      ensures o.Ok? <==> net.Reply(old(net.calls)).Ok?
      ensures !o.Ok? ==> o == net.Reply(old(net.calls)).Propagate()
    {
      o := Do(net, Call.FsSnapshotDelete(fsUuid, ssUuid));
    }

    method NfsExportAuthList(net: Network) returns (o: Outcome<Value>)
      modifies net
      ensures Issued(net, Call.NfsExportAuthList) && o == net.Reply(old(net.calls))
    {
      o := List(net, Call.NfsExportAuthList);
    }

    method NfsExportList(net: Network) returns (o: Outcome<Value>)
      modifies net
      ensures Issued(net, Call.NfsExportList) && o == net.Reply(old(net.calls))
    {
      o := List(net, Call.NfsExportList);
    }

    method NfsExportAdd(net: Network, host: string, path: string, options: seq<string>, chown: string)
      returns (o: Outcome<()>)
      modifies net
      ensures Issued(net, Call.NfsExportAdd(host, path, options, chown))
      ensures o.Ok? <==> net.Reply(old(net.calls)).Ok?
      ensures !o.Ok? ==> o == net.Reply(old(net.calls)).Propagate()
    {
      o := Do(net, Call.NfsExportAdd(host, path, options, chown));
    }

    method NfsExportRemove(net: Network, host: string, path: string) returns (o: Outcome<()>)
      modifies net
      ensures Issued(net, Call.NfsExportRemove(host, path))
      ensures o.Ok? <==> net.Reply(old(net.calls)).Ok?
      ensures !o.Ok? ==> o == net.Reply(old(net.calls)).Propagate()
    {
      o := Do(net, Call.NfsExportRemove(host, path));
    }
  }
}
