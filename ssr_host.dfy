/**
 * The server-rendering bridge of src/server/NodeSsrHost.cs: each request is
 * turned into a JavaScript request object (url, method, headers as a JS Map
 * of string arrays, an AbortSignal), handed to the default export of the
 * server bundle inside the embedded Node.js runtime, and the settled
 * Response is shaped into a status and an HTML string.
 */
module SsrHost {
  import opened Wrappers
  import opened CsInt

  // ---------------------------------------------------------------------
  // Header flattening (ToJSMap).
  // ---------------------------------------------------------------------

  /**
   * An ASP.NET `IHeaderDictionary` in iteration order: each key with its
   * `StringValues`, in which an entry may be null (`None`).
   */
  type Headers = seq<(string, seq<Option<string>>)>

  /** The entries of a JS `Map<string, string[]>`, in insertion order. */
  type MapEntries = seq<(string, seq<string>)>

  /** The non-null values of `vs`, kept in their order. */
  function NonNull(vs: seq<Option<string>>): (r: seq<string>)
    ensures |r| <= |vs|
  {
    if vs == [] then []
    else
      var last := vs[|vs| - 1];
      NonNull(vs[..|vs| - 1]) + (if last.Some? then [last.value] else [])
  }

  /** The array holds a string exactly when the header holds it as a non-null value. */
  lemma {:induction false} NonNullMembers(vs: seq<Option<string>>, x: string)
    ensures x in NonNull(vs) <==> Some(x) in vs
  {
    if vs != [] {
      var init := vs[..|vs| - 1];
      NonNullMembers(init, x);
      assert vs == init + [vs[|vs| - 1]];
    }
  }

  /** Filtering distributes over concatenation: order across the two parts is kept. */
  lemma {:induction false} NonNullAppend(xs: seq<Option<string>>, ys: seq<Option<string>>)
    ensures NonNull(xs + ys) == NonNull(xs) + NonNull(ys)
    decreases |ys|
  {
    if ys == [] {
      assert xs + ys == xs;
    } else {
      var ys' := ys[..|ys| - 1];
      assert (xs + ys)[..|xs + ys| - 1] == xs + ys';
      NonNullAppend(xs, ys');
    }
  }

  /** A header whose values are all null flattens to the empty array. */
  lemma NonNullAllNull(vs: seq<Option<string>>)
    requires forall i :: 0 <= i < |vs| ==> vs[i].None?
    ensures NonNull(vs) == []
  {
    if NonNull(vs) != [] {
      NonNullMembers(vs, NonNull(vs)[0]);
    }
  }

  /** A header without null values keeps every value, in place. */
  lemma {:induction false} NonNullNoNull(vs: seq<Option<string>>)
    requires forall i :: 0 <= i < |vs| ==> vs[i].Some?
    ensures |NonNull(vs)| == |vs|
    ensures forall i :: 0 <= i < |vs| ==> NonNull(vs)[i] == vs[i].value
  {
    if vs != [] {
      NonNullNoNull(vs[..|vs| - 1]);
    }
  }

  /** The keys of a JS Map, in insertion order. */
  function KeysOf(es: MapEntries): (ks: seq<string>)
    ensures |ks| == |es|
    ensures forall i :: 0 <= i < |es| ==> ks[i] == es[i].0
  {
    if es == [] then [] else [es[0].0] + KeysOf(es[1..])
  }

  /** `map.get(k)`: the value stored under `k`, if any. */
  function Lookup(es: MapEntries, k: string): (r: Option<seq<string>>)
    ensures r.Some? <==> k in KeysOf(es)
    ensures r.Some? ==> (k, r.value) in es
  {
    if es == [] then None
    else if es[0].0 == k then Some(es[0].1)
    else Lookup(es[1..], k)
  }

  /**
   * `map.set(k, v)` on a JS Map: a new key is appended after the others, an
   * existing key keeps its position and gets the new value.
   */
  function Put(es: MapEntries, k: string, v: seq<string>): (r: MapEntries)
    ensures k !in KeysOf(es) ==> r == es + [(k, v)]
    ensures |r| <= |es| + 1
  {
    if es == [] then [(k, v)]
    else if es[0].0 == k then [(k, v)] + es[1..]
    else [es[0]] + Put(es[1..], k, v)
  }

  /** `map.set(k, v)` leaves the key order alone for a known key and appends a new one. */
  lemma {:induction false} PutKeys(es: MapEntries, k: string, v: seq<string>)
    ensures KeysOf(Put(es, k, v)) == if k in KeysOf(es) then KeysOf(es) else KeysOf(es) + [k]
  {
    if es == [] {
      assert KeysOf(Put(es, k, v)) == [k];
    } else if es[0].0 == k {
      var r := [(k, v)] + es[1..];
      assert KeysOf(r) == [k] + KeysOf(es[1..]);
      assert KeysOf(es) == [k] + KeysOf(es[1..]);
    } else {
      var tail := Put(es[1..], k, v);
      PutKeys(es[1..], k, v);
      assert KeysOf(es) == [es[0].0] + KeysOf(es[1..]);
      assert KeysOf([es[0]] + tail) == [es[0].0] + KeysOf(tail);
      assert k in KeysOf(es) <==> k in KeysOf(es[1..]);
    }
  }

  /** After `map.set(k, v)`, `k` maps to `v` and every other key keeps its value. */
  lemma {:induction false} PutLookup(es: MapEntries, k: string, v: seq<string>, other: string)
    ensures Lookup(Put(es, k, v), k) == Some(v)
    ensures other != k ==> Lookup(Put(es, k, v), other) == Lookup(es, other)
  {
    if es != [] && es[0].0 != k {
      PutLookup(es[1..], k, v, other);
    }
  }

  /** The Map `ToJSMap` builds: one `map.set` per header, in dictionary order. */
  function Collect(h: Headers): (r: MapEntries)
    ensures |r| <= |h|
  {
    if h == [] then []
    else
      Put(Collect(h[..|h| - 1]), h[|h| - 1].0, NonNull(h[|h| - 1].1))
  }

  /** Whatever the headers, the Map holds each key at most once. */
  lemma {:induction false} CollectKeysDistinct(h: Headers)
    ensures forall i, j :: 0 <= i < j < |Collect(h)| ==> KeysOf(Collect(h))[i] != KeysOf(Collect(h))[j]
  {
    if h != [] {
      var prev := Collect(h[..|h| - 1]);
      var k, v := h[|h| - 1].0, NonNull(h[|h| - 1].1);
      CollectKeysDistinct(h[..|h| - 1]);
      PutKeys(prev, k, v);
      var ks, ks' := KeysOf(prev), KeysOf(Put(prev, k, v));
      assert |ks'| == |Collect(h)|;
      forall i, j | 0 <= i < j < |ks'|
        ensures ks'[i] != ks'[j]
      {
        if k !in ks && j == |ks| {
          assert ks'[i] == ks[i];
        }
      }
    }
  }

  /** A dictionary never holds the same key twice. */
  predicate DistinctKeys(h: Headers) {
    forall i, j :: 0 <= i < j < |h| ==> h[i].0 != h[j].0
  }

  /** A key that no earlier header carries is not yet in a Map built entry by entry from those headers. */
  lemma FreshKey(prev: MapEntries, h: Headers, key: string)
    requires |prev| == |h|
    requires forall i :: 0 <= i < |h| ==> prev[i].0 == h[i].0 != key
    ensures key !in KeysOf(prev)
  {
    forall i | 0 <= i < |prev|
      ensures KeysOf(prev)[i] != key
    {
      assert KeysOf(prev)[i] == prev[i].0;
    }
  }

  /** Appending the last header's entry to the entries of all the others. */
  lemma SnocEntry(prev: MapEntries, h: Headers, r: MapEntries)
    requires |h| > 0 && |prev| == |h| - 1
    requires forall i :: 0 <= i < |prev| ==> prev[i] == (h[i].0, NonNull(h[i].1))
    requires r == prev + [(h[|h| - 1].0, NonNull(h[|h| - 1].1))]
    ensures |r| == |h|
    ensures forall i :: 0 <= i < |h| ==> r[i] == (h[i].0, NonNull(h[i].1))
  {
    forall i | 0 <= i < |h|
      ensures r[i] == (h[i].0, NonNull(h[i].1))
    {
      if i < |prev| {
        assert r[i] == prev[i];
      }
    }
  }

  /**
   * For a header dictionary, the Map has exactly one entry per header, in
   * the dictionary's order, with the key unchanged and the header's non-null
   * values in their order.
   */
  lemma {:induction false} CollectOnePerKey(h: Headers)
    requires DistinctKeys(h)
    ensures |Collect(h)| == |h|
    ensures forall i :: 0 <= i < |h| ==> Collect(h)[i] == (h[i].0, NonNull(h[i].1))
  {
    if h != [] {
      var n := |h| - 1;
      var h' := h[..n];
      assert DistinctKeys(h');
      CollectOnePerKey(h');
      var prev := Collect(h');
      assert forall i :: 0 <= i < n ==> h'[i] == h[i] && h[i].0 != h[n].0;
      FreshKey(prev, h', h[n].0);
      SnocEntry(prev, h, Collect(h));
    }
  }

  /** Looking up the key of header `i` gives that header's non-null values. */
  lemma {:induction false} CollectLookupPresent(h: Headers, i: nat)
    requires DistinctKeys(h) && i < |h|
    ensures Lookup(Collect(h), h[i].0) == Some(NonNull(h[i].1))
  {
    var n := |h| - 1;
    var h' := h[..n];
    var prev := Collect(h');
    PutLookup(prev, h[n].0, NonNull(h[n].1), h[i].0);
    if i < n {
      assert DistinctKeys(h');
      assert h'[i] == h[i];
      assert h[i].0 != h[n].0;
      CollectLookupPresent(h', i);
    }
  }

  /** A key that no header carries is absent from the Map. */
  lemma {:induction false} CollectLookupAbsent(h: Headers, k: string)
    requires forall i :: 0 <= i < |h| ==> h[i].0 != k
    ensures Lookup(Collect(h), k) == None
  {
    if h != [] {
      var n := |h| - 1;
      var h' := h[..n];
      assert forall i :: 0 <= i < n ==> h'[i].0 == h[i].0;
      CollectLookupAbsent(h', k);
      PutLookup(Collect(h'), h[n].0, NonNull(h[n].1), k);
    }
  }

  /** Looking a header up in the Map gives that header's non-null values, and absent keys stay absent. */
  lemma CollectLookup(h: Headers, k: string)
    requires DistinctKeys(h)
    ensures forall i :: 0 <= i < |h| && h[i].0 == k ==> Lookup(Collect(h), k) == Some(NonNull(h[i].1))
    ensures (forall i :: 0 <= i < |h| ==> h[i].0 != k) ==> Lookup(Collect(h), k) == None
  {
    forall i | 0 <= i < |h| && h[i].0 == k
      ensures Lookup(Collect(h), k) == Some(NonNull(h[i].1))
    {
      CollectLookupPresent(h, i);
    }
    if forall i :: 0 <= i < |h| ==> h[i].0 != k {
      CollectLookupAbsent(h, k);
    }
  }

  /** A JS array (`JSArray`); `Add` is `push`. */
  class JSArray {
    var items: seq<string>

    constructor ()
      ensures items == []
    {
      items := [];
    }

    method Add(v: string)
      modifies this
      ensures items == old(items) + [v]
    {
      items := items + [v];
    }
  }

  /** A JS `Map<string, string[]>` (`JSMap`); `Add` is `set`. */
  class JSMap {
    var entries: MapEntries

    constructor ()
      ensures entries == []
    {
      entries := [];
    }

    method Add(key: string, value: seq<string>)
      modifies this
      ensures entries == Put(old(entries), key, value)
    {
      entries := Put(entries, key, value);
    }
  }

  /** `ToJSMap(h)`: a fresh Map from each header key to the array of its non-null values. */
  method ToJSMap(h: Headers) returns (map_: JSMap)
    ensures fresh(map_)
    ensures map_.entries == Collect(h)
  {
    map_ := new JSMap();
    for i := 0 to |h|
      invariant map_.entries == Collect(h[..i])
    {
      var (key, values) := h[i];
      var value := new JSArray();
      for j := 0 to |values|
        invariant value.items == NonNull(values[..j])
        invariant map_.entries == Collect(h[..i])
      {
        if values[j].Some? {
          value.Add(values[j].value);
        }
        assert values[..j + 1][..j] == values[..j];
      }
      assert values[..|values|] == values;
      map_.Add(key, value.items);
      assert h[..i + 1][..i] == h[..i];
    }
    assert h[..|h|] == h;
  }

  // ---------------------------------------------------------------------
  // Rendering (RenderAsync).
  // ---------------------------------------------------------------------

  /** The module `RenderAsync` imports on every call. */
  const ServerEntry: string := "./build/server/index.js"
  const NoBodyHtml: string := "<div>No body</div>"
  const NotPromiseMessage: string := "React Router handler is not returning an expected JSPromise"

  /** The `signal` of an AbortController: whether it has been aborted. */
  datatype AbortSignal = AbortSignal(aborted: bool)

  /** The inbound ASP.NET request, as far as the bridge reads it. */
  datatype HttpRequest = HttpRequest(displayUrl: string, httpMethod: string, headers: Headers)

  /** The JS request object handed to the handler. */
  datatype JsRequest = JsRequest(url: string, httpMethod: string, headers: MapEntries, signal: AbortSignal)

  /**
   * The settled Fetch `Response`: its status (as converted to C# `int`) and
   * its body, `None` when null or undefined and otherwise the text `text()`
   * resolves to.
   */
  datatype JsResponse = JsResponse(status: Int32, body: Option<string>)

  /** How the promise returned by the handler settles. */
  datatype Settlement = Fulfilled(response: JsResponse) | Rejected(reason: string)

  /**
   * What the handler call does: throw synchronously, return a promise, or
   * return any value that is not one.
   */
  datatype HandlerReturn = Threw(exception: string) | NotPromise | Promise(settlement: Settlement)

  /** The default export of the server module. */
  type Handler = JsRequest -> HandlerReturn

  /** The embedded runtime's module loading: the default export of each specifier. */
  type Runtime = string -> Handler

  /** `SsrResult(Status, Html)`. */
  datatype SsrResult = SsrResult(status: Int32, html: string)

  /** The exceptions `RenderAsync` lets escape. */
  datatype RenderError =
    | InvalidOperation(message: string)   // the handler did not return a promise
    | JsException(reason: string)         // the handler threw, or its promise rejected

  /**
   * The result-shaping branches of `RenderAsync`: an exception thrown by the
   * handler call propagates, a non-promise is an `InvalidOperationException`,
   * a rejection propagates, and a response
   * yields its status with the body text or, when there is no body, the
   * fixed "No body" markup.
   */
  function ShapeResult(returned: HandlerReturn): (r: Result<SsrResult, RenderError>)
    ensures returned.Threw? ==> r == Failure(JsException(returned.exception))
    ensures returned.NotPromise? ==> r == Failure(InvalidOperation(NotPromiseMessage))
    ensures returned.Promise? && returned.settlement.Rejected? ==>
              r == Failure(JsException(returned.settlement.reason))
    ensures r.Success? <==> returned.Promise? && returned.settlement.Fulfilled?
    ensures r.Success? ==>
              r.value.status == returned.settlement.response.status &&
              r.value.html == returned.settlement.response.body.GetOr(NoBodyHtml)
  {
    match returned
    case Threw(exception) => Failure(JsException(exception))
    case NotPromise => Failure(InvalidOperation(NotPromiseMessage))
    case Promise(Rejected(reason)) => Failure(JsException(reason))
    case Promise(Fulfilled(res)) =>
      if res.body.None? then Success(SsrResult(res.status, NoBodyHtml))
      else Success(SsrResult(res.status, res.body.value))
  }

  /** The request record the handler receives, as a value. */
  function RequestRecord(request: HttpRequest): (r: JsRequest)
    ensures r.url == request.displayUrl && r.httpMethod == request.httpMethod
    ensures |r.headers| <= |request.headers|
    ensures !r.signal.aborted
  {
    JsRequest(request.displayUrl, request.httpMethod, Collect(request.headers), AbortSignal(false))
  }

  /** The request record carries the display URL, the method, the flattened headers and a signal not yet aborted. */
  lemma RequestRecordFields(request: HttpRequest)
    requires DistinctKeys(request.headers)
    ensures RequestRecord(request).url == request.displayUrl
    ensures RequestRecord(request).httpMethod == request.httpMethod
    ensures |RequestRecord(request).headers| == |request.headers|
    ensures forall i :: 0 <= i < |request.headers| ==>
              RequestRecord(request).headers[i] == (request.headers[i].0, NonNull(request.headers[i].1))
    ensures !RequestRecord(request).signal.aborted
  {
    CollectOnePerKey(request.headers);
  }

  /** The host of the embedded runtime. */
  class NodeSsrHost {
    /** The embedded runtime, seen only through the modules it resolves. */
    const runtime: Runtime
    /** Every module specifier imported so far, in order. */
    ghost var imports: seq<string>

    constructor (runtime: Runtime)
      ensures this.runtime == runtime && imports == []
    {
      this.runtime := runtime;
      imports := [];
    }

    /** `_rt.ImportAsync(specifier)`: the default export of the module. */
    method ImportAsync(specifier: string) returns (handler: Handler)
      modifies this
      ensures imports == old(imports) + [specifier]
      ensures handler == runtime(specifier)
    {
      imports := imports + [specifier];
      handler := runtime(specifier);
    }

    /**
     * `RenderAsync(request)`: imports the server module afresh, builds the
     * request object field by field, calls the handler and shapes what it
     * settles to.
     */
    method RenderAsync(request: HttpRequest) returns (r: Result<SsrResult, RenderError>)
      modifies this
      ensures imports == old(imports) + [ServerEntry]
      ensures r == ShapeResult(runtime(ServerEntry)(RequestRecord(request)))
    {
      var handler := ImportAsync(ServerEntry);
      var url := request.displayUrl;
      var httpMethod := request.httpMethod;
      var headers := ToJSMap(request.headers);
      var abortController := AbortSignal(false);
      var req := JsRequest(url, httpMethod, headers.entries, abortController);
      var returned := handler(req);
      if returned.Threw? {
        return Failure(JsException(returned.exception));
      }
      if returned.NotPromise? {
        return Failure(InvalidOperation(NotPromiseMessage));
      }
      match returned.settlement {
        case Rejected(reason) =>
          r := Failure(JsException(reason));
        case Fulfilled(res) =>
          if res.body.None? {
            return Success(SsrResult(res.status, NoBodyHtml));
          }
          var status := res.status;
          var bodyContents := res.body.value;
          r := Success(SsrResult(status, bodyContents));
      }
    }
  }

  /** Nothing caches the handler: two renders import the server module twice. */
  method RenderTwice(host: NodeSsrHost, first: HttpRequest, second: HttpRequest)
      returns (r1: Result<SsrResult, RenderError>, r2: Result<SsrResult, RenderError>)
    modifies host
    ensures host.imports == old(host.imports) + [ServerEntry, ServerEntry]
    ensures r1 == ShapeResult(host.runtime(ServerEntry)(RequestRecord(first)))
    ensures r2 == ShapeResult(host.runtime(ServerEntry)(RequestRecord(second)))
  {
    r1 := host.RenderAsync(first);
    r2 := host.RenderAsync(second);
  }
}
