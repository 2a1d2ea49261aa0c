/** The decision logic of targetdctl: log-level selection and gating, the
    rewrite of size fields for display, the pool filter of `pool get`, the
    batch `volume destroy`, and the error boundary of `main`. Printing is
    appending to `Context.out`; `naturalsize` is a parameter of the context. */
module Cli {
  import opened Exceptions
  import opened Json
  import opened Rpc
  import opened Client

  const LOG_WARNING: int := 1
  const LOG_INFO: int := 2
  const LOG_DEBUG: int := 3

  /** A line of output: a message, or a table of rows with or without a header line. */
  datatype Line = Text(s: string) | Table(rows: seq<Record>, headers: bool)

  /** `cli`: --debug wins over --verbose; neither gives warnings only. */
  function SelectLogLevel(debug: bool, verbose: bool): (level: int)
    ensures level == LOG_DEBUG <==> debug
    ensures level == LOG_INFO <==> !debug && verbose
    ensures level == LOG_WARNING <==> !debug && !verbose
  {
    if debug then LOG_DEBUG else if verbose then LOG_INFO else LOG_WARNING
  }

  /** A message of severity `threshold` at log level `level`: printed when
      the level is at least the threshold. */
  function Logged(level: int, threshold: int, msg: string): (out: seq<Line>)
    ensures out == [] || out == [Text(msg)]
    ensures out != [] <==> level >= threshold
  {
    if level < threshold then [] else [Text(msg)]
  }

  /** What `debug` prints as written: the gate returns early below LOG_DEBUG
      and otherwise falls off the end without printing. */
  function DebugAsWritten(level: int, msg: string): (out: seq<Line>)
    ensures |out| == 0
  {
    []
  }

  /** Info messages show exactly under --debug or --verbose. */
  lemma InfoShownIffDebugOrVerbose(debug: bool, verbose: bool, msg: string)
    ensures Logged(SelectLogLevel(debug, verbose), LOG_INFO, msg) != [] <==> debug || verbose
  {
  }

  /** As written, --debug does not make debug messages appear. */
  lemma DebugNeverPrints(verbose: bool, msg: string)
    ensures SelectLogLevel(true, verbose) == LOG_DEBUG
    ensures DebugAsWritten(SelectLogLevel(true, verbose), msg) == []
    ensures Logged(SelectLogLevel(true, verbose), LOG_DEBUG, msg) == [Text(msg)]
  {
  }

  /** With the gate completed as `info`'s is, debug messages show exactly
      under --debug, and whatever debug shows info shows too. */
  lemma DebugIntended(debug: bool, verbose: bool, msg: string)
    ensures Logged(SelectLogLevel(debug, verbose), LOG_DEBUG, msg) != [] <==> debug
    ensures Logged(SelectLogLevel(debug, verbose), LOG_DEBUG, msg) != [] ==>
              Logged(SelectLogLevel(debug, verbose), LOG_INFO, msg) != []
  {
  }

  /** `sub` occurs in `s` starting at position `i`. */
  predicate OccursAt(s: string, sub: string, i: int) {
    0 <= i && i + |sub| <= |s| && s[i..i + |sub|] == sub
  }

  /** `sub in s` for strings. */
  predicate Contains(s: string, sub: string) {
    exists i :: 0 <= i <= |s| - |sub| && OccursAt(s, sub, i)
  }

  /** `isinstance(value, (int, float))`: bool is a subclass of int. */
  predicate Numeric(v: Value) { v.JInt? || v.JFloat? || v.JBool? }

  /** The entry `humanize` rewrites. */
  predicate SizeEntry(key: string, v: Value) { Contains(key, "size") && Numeric(v) }

  /** One dict after `humanize`: every numeric entry under a key containing
      "size" becomes the text `naturalsize` gives for it. */
  function HumanizeRecord(naturalSize: Value -> string, m: Record): (r: Record)
    ensures r.Keys == m.Keys
    ensures forall k :: k in m && SizeEntry(k, m[k]) ==> r[k] == JStr(naturalSize(m[k]))
    ensures forall k :: k in m && r[k] != m[k] ==> SizeEntry(k, m[k])
  {
    map k | k in m :: if SizeEntry(k, m[k]) then JStr(naturalSize(m[k])) else m[k]
  }

  /** After the rewrite no size entry is numeric any more. */
  lemma NoSizeLeftNumeric(naturalSize: Value -> string, m: Record)
    ensures forall k :: k in HumanizeRecord(naturalSize, m) ==> !SizeEntry(k, HumanizeRecord(naturalSize, m)[k])
  {
  }

  /** Rewriting twice is rewriting once: the text `naturalsize` returns is
      not numeric. */
  lemma HumanizeIdempotent(naturalSize: Value -> string, m: Record)
    ensures HumanizeRecord(naturalSize, HumanizeRecord(naturalSize, m)) == HumanizeRecord(naturalSize, m)
  {
    var once := HumanizeRecord(naturalSize, m);
    var twice := HumanizeRecord(naturalSize, once);
    assert forall k :: k in once ==> twice[k] == once[k];
  }

  /** Entries that are not numeric size fields are left exactly as they were. */
  lemma HumanizeKeepsOthers(naturalSize: Value -> string, m: Record, k: string)
    requires k in m && (!Contains(k, "size") || !Numeric(m[k]))
    ensures HumanizeRecord(naturalSize, m)[k] == m[k]
  {
  }

  /** Every row after `humanize`. */
  function HumanizeRows(naturalSize: Value -> string, rows: seq<Record>): (r: seq<Record>)
    ensures |r| == |rows|
    ensures forall i :: 0 <= i < |rows| ==> r[i] == HumanizeRecord(naturalSize, rows[i])
  {
    seq(|rows|, i requires 0 <= i < |rows| => HumanizeRecord(naturalSize, rows[i]))
  }

  /** A dict decoded from a reply: `humanize` changes it in place. */
  class Item {
    var fields: Record

    constructor (fields: Record)
      ensures this.fields == fields
    {
      this.fields := fields;
    }
  }

  /** The dicts' current contents. */
  function Contents(items: seq<Item>): (rows: seq<Record>)
    reads items
    ensures |rows| == |items|
    ensures forall i :: 0 <= i < |items| ==> rows[i] == items[i].fields
  {
    if items == [] then [] else [items[0].fields] + Contents(items[1..])
  }

  /** The JSON decoder's dicts: one fresh object per record. */
  method Decode(rows: seq<Record>) returns (items: seq<Item>)
    ensures Contents(items) == rows
    ensures forall x :: x in items ==> fresh(x)
    ensures forall i, j :: 0 <= i < j < |items| ==> items[i] != items[j]
  {
    items := [];
    for i := 0 to |rows|
      invariant |items| == i
      invariant forall j :: 0 <= j < i ==> items[j].fields == rows[j]
      invariant forall x :: x in items ==> fresh(x)
      invariant forall a, b :: 0 <= a < b < i ==> items[a] != items[b]
    {
      var x := new Item(rows[i]);
      items := items + [x];
    }
  }

  /** `Context`: the client, the log level, whether tables get a header line,
      and everything printed so far. */
  class Context {
    const targetd: TargetdClient
    const logLevel: int
    const printHeaders: bool
    const naturalSize: Value -> string
    var out: seq<Line>

    constructor (url: string, username: string, password: string, logLevel: int, printHeaders: bool,
                 naturalSize: Value -> string)
      ensures targetd.url == url && targetd.user == username && targetd.password == password
      ensures !targetd.insecureSkipVerify
      ensures this.logLevel == logLevel && this.printHeaders == printHeaders
      ensures this.naturalSize == naturalSize
      ensures out == []
    {
      targetd := new TargetdClient(url, username, password);
      this.logLevel := logLevel;
      this.printHeaders := printHeaders;
      this.naturalSize := naturalSize;
      out := [];
    }

    /** `warning` always prints. */
    method Warning(msg: string)
      modifies this
      ensures out == old(out) + [Text(msg)]
    {
      out := out + [Text(msg)];
    }

    /** `info` prints from LOG_INFO up. */
    method Info(msg: string)
      modifies this
      ensures out == old(out) + Logged(logLevel, LOG_INFO, msg)
    {
      if logLevel < LOG_INFO {
        return;
      }
      out := out + [Text(msg)];
    }

    /** `debug`, as written: it never prints. */
    method Debug(msg: string)
      modifies this
      ensures out == old(out) + DebugAsWritten(logLevel, msg)
    {
      if logLevel < LOG_DEBUG {
        return;
      }
    }

    /** One dict of `humanize`: every key is visited once and only size
        entries are rewritten. */
    method HumanizeItem(item: Item)
      modifies item
      ensures item.fields == HumanizeRecord(naturalSize, old(item.fields))
    {
      var original := item.fields;
      var pending := original.Keys;
      while pending != {}
        invariant pending <= original.Keys
        invariant item.fields.Keys == original.Keys
        invariant forall k :: k in original ==>
                    item.fields[k] == if k in pending then original[k] else HumanizeRecord(naturalSize, original)[k]
        decreases |pending|
      {
        var key :| key in pending;
        var value := item.fields[key];
        if Contains(key, "size") && Numeric(value) {
          item.fields := item.fields[key := JStr(naturalSize(value))];
        }
        pending := pending - {key};
      }
      assert item.fields == HumanizeRecord(naturalSize, original);
    }

    /** `humanize(data)`: rewrites the dicts in place and returns the same
        list. A dict listed twice is rewritten twice, to the same result. */
    method Humanize(data: seq<Item>) returns (r: seq<Item>)
      modifies set x | x in data
      ensures r == data
      ensures forall x :: x in data ==> x.fields == HumanizeRecord(naturalSize, old(x.fields))
    {
      for i := 0 to |data|
        invariant forall x :: x in data && x !in data[..i] ==> x.fields == old(x.fields)
        invariant forall x :: x in data[..i] ==> x.fields == HumanizeRecord(naturalSize, old(x.fields))
      {
        var item := data[i];
        ghost var seen := item in data[..i];
        HumanizeItem(item);
        if seen {
          HumanizeIdempotent(naturalSize, old(item.fields));
        }
        assert data[..i + 1] == data[..i] + [item];
      }
      r := data;
    }

    /** `tabulate(data)`: humanize, then print the table. */
    method Tabulate(data: seq<Item>)
      modifies this, set x | x in data
      ensures forall x :: x in data ==> x.fields == HumanizeRecord(naturalSize, old(x.fields))
      ensures out == old(out) + [Table(HumanizeRows(naturalSize, old(Contents(data))), printHeaders)]
    {
      ghost var before := Contents(data);
      var rows := Humanize(data);
      assert Contents(rows) == HumanizeRows(naturalSize, before) by {
        forall i | 0 <= i < |data|
          ensures Contents(rows)[i] == HumanizeRows(naturalSize, before)[i]
        {
          assert before[i] == old(data[i].fields);
        }
      }
      out := out + [Table(Contents(rows), printHeaders)];
    }
  }


  /** The pool `p` is an object whose "name" is `name`. */
  predicate NamedPool(p: Value, name: string) {
    p.JObject? && "name" in p.fields && p.fields["name"] == JStr(name)
  }

  /** `[pool for pool in pools if pool["name"] == name]`: the pools named
      `name`, in their order and as often as they occur. The first pool that
      is not an object raises TypeError, the first without a name KeyError. */
  function PoolsNamed(pools: seq<Value>, name: string): (o: Outcome<seq<Value>>)
    ensures !o.Raised?
    ensures o.Ok? <==> forall p :: p in pools ==> p.JObject? && "name" in p.fields
    ensures o.Fault? ==> exists i :: 0 <= i < |pools| && !(pools[i].JObject? && "name" in pools[i].fields)
                                     && o.fault == (if pools[i].JObject? then KeyError("name") else TypeError)
                                     && forall j :: 0 <= j < i ==> pools[j].JObject? && "name" in pools[j].fields
    ensures o.Ok? ==> forall p :: p in o.value <==> p in pools && NamedPool(p, name)
    ensures o.Ok? ==> |o.value| <= |pools|
    decreases |pools|
  {
    if pools == [] then Ok([])
    else if !pools[0].JObject? then Fault(TypeError)
    else if "name" !in pools[0].fields then Fault(KeyError("name"))
    else
      var rest := PoolsNamed(pools[1..], name);
      if !rest.Ok? then rest
      else if NamedPool(pools[0], name) then Ok([pools[0]] + rest.value)
      else rest
  }

  /** `xs` is `ys` with some elements left out. */
  predicate IsSubsequence(xs: seq<Value>, ys: seq<Value>)
    decreases |ys|
  {
    if ys == [] then xs == []
    else (xs != [] && xs[0] == ys[0] && IsSubsequence(xs[1..], ys[1..])) || IsSubsequence(xs, ys[1..])
  }

  /** The filter keeps the pools' order. */
  lemma {:induction false} PoolsNamedIsSubsequence(pools: seq<Value>, name: string)
    requires PoolsNamed(pools, name).Ok?
    ensures IsSubsequence(PoolsNamed(pools, name).value, pools)
    decreases |pools|
  {
    if pools != [] {
      PoolsNamedIsSubsequence(pools[1..], name);
      var rest := PoolsNamed(pools[1..], name).value;
      if NamedPool(pools[0], name) {
        assert ([pools[0]] + rest)[1..] == rest;
      }
    }
  }

  /** The filter keeps each named pool as often as it occurs, and nothing else. */
  lemma {:induction false} PoolsNamedKeepsMultiplicity(pools: seq<Value>, name: string)
    requires PoolsNamed(pools, name).Ok?
    ensures forall p :: multiset(PoolsNamed(pools, name).value)[p] == if NamedPool(p, name) then multiset(pools)[p] else 0
    decreases |pools|
  {
    if pools != [] {
      PoolsNamedKeepsMultiplicity(pools[1..], name);
      assert pools == [pools[0]] + pools[1..];
    }
  }

  /** The records of a list of JSON objects. */
  function Fields(vs: seq<Value>): (rs: seq<Record>)
    requires forall v :: v in vs ==> v.JObject?
    ensures |rs| == |vs| && forall i :: 0 <= i < |vs| ==> vs[i] == JObject(rs[i])
  {
    seq(|vs|, i requires 0 <= i < |vs| => vs[i].fields)
  }

  /** `pool get NAME`: list the pools, keep those named NAME, and print
      them unless there are none. */
  method PoolGet(ctx: Context, net: Network, name: string) returns (o: Outcome<()>)
    modifies ctx, net
    ensures ctx.targetd.Issued(net, Call.PoolList)
    ensures var listed := Iterated(net.Reply(old(net.calls)));
            var named := if listed.Ok? then PoolsNamed(listed.value, name) else Ok([]);
            && (!listed.Ok? ==> o == listed.Propagate() && ctx.out == old(ctx.out))
            && (listed.Ok? && !named.Ok? ==> o == named.Propagate() && ctx.out == old(ctx.out))
            && (listed.Ok? && named == Ok([]) ==> o == Ok(()) && ctx.out == old(ctx.out))
            && (listed.Ok? && named.Ok? && named.value != [] ==>
                  o == Ok(())
                  && ctx.out == old(ctx.out) + [Table(HumanizeRows(ctx.naturalSize, Fields(named.value)), ctx.printHeaders)])
  {
    var reply := ctx.targetd.PoolList(net);
    var listed := Iterated(reply);
    if !listed.Ok? {
      return listed.Propagate();
    }
    var named := PoolsNamed(listed.value, name);
    if !named.Ok? {
      return named.Propagate();
    }
    if named.value == [] {
      return Ok(());
    }
    var items := Decode(Fields(named.value));
    ctx.Tabulate(items);
    o := Ok(());
  }

  /** `volume destroy` treats a failure as fatal unless it is a
      TargetdException with code NOT_FOUND_VOLUME. */
  predicate Fatal(r: Outcome<Value>) {
    !r.Ok? && !(r.Raised? && r.error.code == NOT_FOUND_VOLUME)
  }

  /** The failure `volume destroy` skips with a message. */
  predicate Skipped(r: Outcome<Value>) {
    r.Raised? && r.error.code == NOT_FOUND_VOLUME
  }

  /** The reply to the j-th call after call k0 on `net`. */
  function ReplyAfter(net: Network, k0: nat, j: nat): Outcome<Value> {
    net.Reply(k0 + j)
  }

  /** The position of the first fatal reply among the n calls from call k0
      on, or n if there is none. */
  function FirstFatal(net: Network, k0: nat, n: nat): (stop: nat)
    ensures stop <= n
    ensures stop < n ==> Fatal(ReplyAfter(net, k0, stop))
  {
    if n == 0 then 0
    else
      var before := FirstFatal(net, k0, n - 1);
      if before < n - 1 then before
      else if Fatal(ReplyAfter(net, k0, n - 1)) then n - 1
      else n
  }

  /** A fatal reply preceded only by non-fatal ones is the first fatal one,
      however many calls are looked at. */
  lemma {:induction false} FirstFatalIs(net: Network, k0: nat, i: nat, n: nat)
    requires i < n && Fatal(ReplyAfter(net, k0, i))
    requires forall j: nat :: j < i ==> !Fatal(ReplyAfter(net, k0, j))
    ensures FirstFatal(net, k0, n) == i
    decreases n
  {
    if n == i + 1 {
      NotFoundNeverStops(net, k0, i);
    } else {
      FirstFatalIs(net, k0, i, n - 1);
    }
  }

  /** How many names `volume destroy` tries: up to and including the first
      fatal one. */
  function Tried(net: Network, k0: nat, n: nat): (t: nat)
    ensures t <= n
    ensures FirstFatal(net, k0, n) < n ==> t == FirstFatal(net, k0, n) + 1
    ensures FirstFatal(net, k0, n) == n ==> t == n
  {
    var stop := FirstFatal(net, k0, n);
    if stop < n then stop + 1 else n
  }

  /** What `volume destroy` prints for a name it skips. */
  function SkipMessage(name: string): string {
    "Skipping non existing volume " + name
  }

  /** The lines one reply adds to the output at log level `level`. */
  function SkipLine(level: int, reply: Outcome<Value>, name: string): (lines: seq<Line>)
    ensures lines != [] <==> Skipped(reply) && level >= LOG_INFO
  {
    if Skipped(reply) then Logged(level, LOG_INFO, SkipMessage(name)) else []
  }

  /** `out` followed by the lines printed for the first n names. */
  function SkipLog(out: seq<Line>, level: int, net: Network, k0: nat, names: seq<string>, n: nat): seq<Line>
    requires n <= |names|
  {
    if n == 0 then out
    else SkipLog(out, level, net, k0, names, n - 1) + SkipLine(level, ReplyAfter(net, k0, n - 1), names[n - 1])
  }

  /** The batch only appends to the output, at most one line per name. */
  lemma {:induction false} SkipLogExtends(out: seq<Line>, level: int, net: Network, k0: nat, names: seq<string>, n: nat)
    requires n <= |names|
    ensures var lines := SkipLog(out, level, net, k0, names, n);
            |out| <= |lines| <= |out| + n && lines[..|out|] == out
  {
    if n > 0 {
      SkipLogExtends(out, level, net, k0, names, n - 1);
    }
  }

  /** `sent` followed by the posts for the first n names, the j-th as call k0 + j. */
  function DestroyPosts(sent: seq<Post>, client: TargetdClient, net: Network, k0: nat, pool: string,
                        names: seq<string>, n: nat): seq<Post>
    requires n <= |names|
  {
    if n == 0 then sent
    else DestroyPosts(sent, client, net, k0, pool, names, n - 1)
         + [client.PostAt(net, k0 + n - 1, Call.VolDestroy(pool, names[n - 1]))]
  }

  /** The batch appends one post per name tried, the j-th destroying the
      j-th name as call k0 + j. */
  lemma {:induction false} DestroyPostsExtends(sent: seq<Post>, client: TargetdClient, net: Network, k0: nat,
                                               pool: string, names: seq<string>, n: nat)
    requires n <= |names|
    ensures var posts := DestroyPosts(sent, client, net, k0, pool, names, n);
            && |posts| == |sent| + n && posts[..|sent|] == sent
            && forall j :: 0 <= j < n ==>
                 posts[|sent| + j] == client.PostAt(net, k0 + j, Call.VolDestroy(pool, names[j]))
  {
    if n > 0 {
      DestroyPostsExtends(sent, client, net, k0, pool, names, n - 1);
      var before := DestroyPosts(sent, client, net, k0, pool, names, n - 1);
      var posts := before + [client.PostAt(net, k0 + n - 1, Call.VolDestroy(pool, names[n - 1]))];
      assert posts[..|sent|] == before[..|sent|];
      forall j | 0 <= j < n - 1
        ensures posts[|sent| + j] == client.PostAt(net, k0 + j, Call.VolDestroy(pool, names[j]))
      {
        assert posts[|sent| + j] == before[|sent| + j];
      }
    }
  }

  /** With no fatal reply every name is tried and the batch goes through. */
  lemma {:induction false} NotFoundNeverStops(net: Network, k0: nat, n: nat)
    requires forall j: nat :: j < n ==> !Fatal(ReplyAfter(net, k0, j))
    ensures FirstFatal(net, k0, n) == n && Tried(net, k0, n) == n
  {
    if n > 0 {
      NotFoundNeverStops(net, k0, n - 1);
    }
  }

  /** `volume destroy POOL NAMES...`: destroy the volumes in order, skipping
      the ones that do not exist; any other failure ends the batch and
      propagates. */
  method VolumeDestroy(ctx: Context, net: Network, pool: string, names: seq<string>) returns (o: Outcome<()>)
    modifies ctx, net
    ensures net.calls == old(net.calls) + Tried(net, old(net.calls), |names|)
    ensures net.sent == DestroyPosts(old(net.sent), ctx.targetd, net, old(net.calls), pool, names,
                                     Tried(net, old(net.calls), |names|))
    ensures ctx.out == SkipLog(old(ctx.out), ctx.logLevel, net, old(net.calls), names,
                               Tried(net, old(net.calls), |names|))
    ensures o.Ok? <==> FirstFatal(net, old(net.calls), |names|) == |names|
    ensures !o.Ok? ==> o == ReplyAfter(net, old(net.calls), FirstFatal(net, old(net.calls), |names|)).Propagate()
  {
    ghost var k0 := net.calls;
    ghost var sent0 := net.sent;
    ghost var out0 := ctx.out;
    var i := 0;
    while i < |names|
      invariant i <= |names| && BatchSoFar(ctx, net, pool, names, i, k0, sent0, out0)
    {
      var fatal, r := DestroyNext(ctx, net, pool, names, i, k0, sent0, out0);
      if fatal {
        ghost var tried := Tried(net, k0, |names|);
        assert tried == i + 1 && net.calls == k0 + tried;
        assert net.sent == DestroyPosts(sent0, ctx.targetd, net, k0, pool, names, tried);
        assert ctx.out == SkipLog(out0, ctx.logLevel, net, k0, names, tried);
        return r;
      }
      i := i + 1;
    }
    NotFoundNeverStops(net, k0, |names|);
    assert Tried(net, k0, |names|) == |names|;
    o := Ok(());
  }

  /** The first i names were tried, none fatally, and their posts and
      messages are out. */
  ghost predicate BatchSoFar(ctx: Context, net: Network, pool: string, names: seq<string>, i: nat,
                             k0: nat, sent0: seq<Post>, out0: seq<Line>)
    reads ctx, net
  {
    BatchState(net.calls, net.sent, ctx.out, ctx.logLevel, ctx.targetd, net, pool, names, i, k0, sent0, out0)
  }

  /** `BatchSoFar` over the call count, the posts and the output as values. */
  ghost predicate BatchState(calls: nat, sent: seq<Post>, out: seq<Line>, level: int, client: TargetdClient,
                             net: Network, pool: string, names: seq<string>, i: nat,
                             k0: nat, sent0: seq<Post>, out0: seq<Line>)
  {
    && i <= |names|
    && calls == k0 + i
    && (forall j: nat :: j < i ==> !Fatal(ReplyAfter(net, k0, j)))
    && sent == DestroyPosts(sent0, client, net, k0, pool, names, i)
    && out == SkipLog(out0, level, net, k0, names, i)
  }

  /** A non-fatal i-th reply extends the batch by one name. */
  lemma BatchAdvance(calls: nat, sent: seq<Post>, out: seq<Line>, level: int, client: TargetdClient,
                     net: Network, pool: string, names: seq<string>, i: nat,
                     k0: nat, sent0: seq<Post>, out0: seq<Line>)
    requires i < |names| && !Fatal(ReplyAfter(net, k0, i))
    requires BatchState(calls, sent, out, level, client, net, pool, names, i, k0, sent0, out0)
    ensures BatchState(calls + 1, sent + [client.PostAt(net, k0 + i, Call.VolDestroy(pool, names[i]))],
                       out + SkipLine(level, ReplyAfter(net, k0, i), names[i]),
                       level, client, net, pool, names, i + 1, k0, sent0, out0)
  {
  }

  /** A fatal i-th reply after non-fatal ones ends the batch there: i + 1
      names were tried. */
  lemma FatalEndsBatch(net: Network, k0: nat, names: seq<string>, i: nat)
    requires i < |names| && Fatal(ReplyAfter(net, k0, i))
    requires forall j: nat :: j < i ==> !Fatal(ReplyAfter(net, k0, j))
    ensures FirstFatal(net, k0, |names|) == i && Tried(net, k0, |names|) == i + 1
  {
    FirstFatalIs(net, k0, i, |names|);
  }

  /** The name that ends the batch is posted and prints nothing. */
  lemma FatalIsLast(calls: nat, sent: seq<Post>, out: seq<Line>, level: int, client: TargetdClient,
                    net: Network, pool: string, names: seq<string>, i: nat,
                    k0: nat, sent0: seq<Post>, out0: seq<Line>)
    requires i < |names| && Fatal(ReplyAfter(net, k0, i))
    requires BatchState(calls, sent, out, level, client, net, pool, names, i, k0, sent0, out0)
    ensures sent + [client.PostAt(net, k0 + i, Call.VolDestroy(pool, names[i]))]
            == DestroyPosts(sent0, client, net, k0, pool, names, i + 1)
    ensures out == SkipLog(out0, level, net, k0, names, i + 1)
  {
    assert SkipLine(level, ReplyAfter(net, k0, i), names[i]) == [];
  }

  /** The i-th name of the batch: destroy it, and log the skip if it did not
      exist. A fatal failure is the first one of the batch and ends it. */
  method DestroyNext(ctx: Context, net: Network, pool: string, names: seq<string>, i: nat,
                     ghost k0: nat, ghost sent0: seq<Post>, ghost out0: seq<Line>)
    returns (fatal: bool, o: Outcome<()>)
    requires i < |names| && BatchSoFar(ctx, net, pool, names, i, k0, sent0, out0)
    modifies ctx, net
    ensures fatal == Fatal(ReplyAfter(net, k0, i))
    ensures !fatal ==> BatchSoFar(ctx, net, pool, names, i + 1, k0, sent0, out0)
    ensures fatal ==> && FirstFatal(net, k0, |names|) == i && Tried(net, k0, |names|) == i + 1
                      && net.calls == k0 + i + 1
                      && net.sent == DestroyPosts(sent0, ctx.targetd, net, k0, pool, names, i + 1)
                      && ctx.out == SkipLog(out0, ctx.logLevel, net, k0, names, i + 1)
                      && o == ReplyAfter(net, k0, i).Propagate()
  {
    ghost var reply := ReplyAfter(net, k0, i);
    ghost var calls, sent, out := net.calls, net.sent, ctx.out;
    o := ctx.targetd.VolDestroy(net, pool, names[i]);
    fatal := !o.Ok? && !(o.Raised? && o.error.code == NOT_FOUND_VOLUME);
    assert fatal == Fatal(reply) && (!o.Ok? && !fatal <==> Skipped(reply));
    if fatal {
      FatalIsLast(calls, sent, out, ctx.logLevel, ctx.targetd, net, pool, names, i, k0, sent0, out0);
      FatalEndsBatch(net, k0, names, i);
      return;
    }
    if !o.Ok? {
      ctx.Info(SkipMessage(names[i]));
    }
    assert ctx.out == out + SkipLine(ctx.logLevel, reply, names[i]);
    BatchAdvance(calls, sent, out, ctx.logLevel, ctx.targetd, net, pool, names, i, k0, sent0, out0);
  }

  /** How the program ends. */
  datatype Exit = Finished | Printed(text: string) | Crashed(fault: Fault)

  /** `main`: a TargetdException is caught and its message printed; any
      other exception escapes. */
  function Main(o: Outcome<()>): (e: Exit)
    ensures e.Printed? <==> o.Raised?
    ensures e.Crashed? <==> o.Fault?
    ensures o.Raised? ==> e.text == o.error.message
    ensures o.Fault? ==> e.fault == o.fault
  {
    match o
    case Ok(_) => Finished
    case Raised(err) => Printed(err.Text())
    case Fault(f) => Crashed(f)
  }
}
