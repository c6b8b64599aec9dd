/** `src/services/aiService.ts`: the frontend's client of the backend. The
    network is abstracted: each `fetch` is a request the model builds and an
    outcome it is given. `Promise.allSettled` becomes the sequence of settled
    outcomes, in the order of the ids. The static members of `AIService`
    (the cached key and its mirror in `localStorage`) are the class below. */
module AiClient {
  import opened Wrappers
  import JsString
  import Config
  import Browser

  datatype Product = Product(id: int, name: string, category: string, price: real, description: string)

  datatype ProductAnalysis = ProductAnalysis(
    productId: int,
    name: string,
    category: string,
    price: string,
    recommendation: string,
    confidenceScore: real)

  /** How a promise settles: with a value, or rejected with an error message. */
  datatype Settled<T> = Fulfilled(value: T) | Rejected(reason: string)

  /** The requests the service sends. `PostJson` carries the header
      `Content-Type: application/json` and the body `{"productId": productId}`. */
  datatype HttpRequest =
    | Get(url: string)
    | PostJson(url: string, productId: int)

  /** A body that parsed as JSON. `response.json()` resolves with any
      well-formed JSON value, because the declared TypeScript type is not
      checked at run time: the value is either of the declared type, or some
      other JSON value (`null`, `{"message": "x"}`, ...), kept as its text. */
  datatype Json<T> = Typed(value: T) | Untyped(source: string)

  /** What `fetch` yields: a failure before any response, or a response whose
      body `json` is `None` when it is not JSON and the parsed value otherwise. */
  datatype FetchOutcome<T> =
    | NetworkFailure(reason: string)
    | Response(ok: bool, status: nat, statusText: string, text: string, json: Option<Json<T>>)

  const ProductsPath := "/api/products"
  const AnalyzePath := "/api/products/analyze"

  /** The rejection `response.json()` produces on a body that is not JSON. */
  const InvalidJson := "invalid JSON in response body"

  // ---------------------------------------------------------------------
  // getProducts

  function GetProductsRequest(baseUrl: string): (req: HttpRequest)
    ensures req.Get? && req.url == baseUrl + ProductsPath
  {
    Get(baseUrl + ProductsPath)
  }

  /** How `getProducts` settles for a given `fetch` outcome. Errors are logged
      and rethrown, so they reject the returned promise. */
  function GetProductsResult(response: FetchOutcome<seq<Product>>): (r: Settled<Json<seq<Product>>>)
    ensures r.Fulfilled? <==> response.Response? && response.ok && response.json.Some?
    ensures r.Fulfilled? ==> r.value == response.json.value
    ensures response.NetworkFailure? ==> r == Rejected(response.reason)
    ensures response.Response? && response.ok && response.json.None? ==> r == Rejected(InvalidJson)
    ensures response.Response? && !response.ok ==>
      r == Rejected("Error fetching products: " + response.statusText)
  {
    match response
    case NetworkFailure(reason) => Rejected(reason)
    case Response(ok, _, statusText, _, json) =>
      if !ok then Rejected("Error fetching products: " + statusText)
      else if json.None? then Rejected(InvalidJson)
      else Fulfilled(json.value)
  }

  /** The products URL that results from each environment setting: the
      environment URL + path when it is truthy, otherwise the bare path,
      which the development server proxies to the backend. */
  lemma ProductsUrlFromEnvironment(envUrl: Option<string>)
    ensures JsString.TruthyOption(envUrl) ==>
      GetProductsRequest(Config.GetApiBaseUrl(envUrl)).url == envUrl.value + ProductsPath
    ensures !JsString.TruthyOption(envUrl) ==>
      GetProductsRequest(Config.GetApiBaseUrl(envUrl)).url == ProductsPath
  {
    assert "" + ProductsPath == ProductsPath;
  }

  // ---------------------------------------------------------------------
  // analyzeProduct

  /** The analyze URL: base + path when the base is truthy, the bare path
      otherwise. Since '' + path is the path, it is always base + path. */
  function AnalyzeUrl(baseUrl: string): (url: string)
    ensures url == baseUrl + AnalyzePath
  {
    if JsString.Truthy(baseUrl) then baseUrl + AnalyzePath else AnalyzePath
  }

  /** The analyze URL that results from each environment setting. */
  lemma AnalyzeUrlFromEnvironment(envUrl: Option<string>)
    ensures JsString.TruthyOption(envUrl) ==> AnalyzeUrl(Config.GetApiBaseUrl(envUrl)) == envUrl.value + AnalyzePath
    ensures !JsString.TruthyOption(envUrl) ==> AnalyzeUrl(Config.GetApiBaseUrl(envUrl)) == AnalyzePath
  {
    assert "" + AnalyzePath == AnalyzePath;
  }

  /** The POST `analyzeProduct(productId)` sends: to the analyze URL, with
      exactly the given id in its body. */
  function AnalyzeRequest(baseUrl: string, productId: int): (req: HttpRequest)
    ensures req.PostJson? && req.url == baseUrl + AnalyzePath && req.productId == productId
  {
    PostJson(AnalyzeUrl(baseUrl), productId)
  }

  /** How `analyzeProduct` settles for a given `fetch` outcome: a response that
      is not ok is an error whose message carries the status, the status text
      and the body text, and never an analysis. */
  function AnalyzeResult(response: FetchOutcome<ProductAnalysis>): (r: Settled<Json<ProductAnalysis>>)
    ensures r.Fulfilled? <==> response.Response? && response.ok && response.json.Some?
    ensures r.Fulfilled? ==> r.value == response.json.value
    ensures response.NetworkFailure? ==> r == Rejected(response.reason)
    ensures response.Response? && response.ok && response.json.None? ==> r == Rejected(InvalidJson)
    ensures response.Response? && !response.ok ==>
      r == Rejected("Error analyzing product: " + JsString.NatToString(response.status) + " "
                    + response.statusText + " - " + response.text)
  {
    match response
    case NetworkFailure(reason) => Rejected(reason)
    case Response(ok, status, statusText, text, json) =>
      if !ok then
        Rejected("Error analyzing product: " + JsString.NatToString(status) + " " + statusText + " - " + text)
      else if json.None? then Rejected(InvalidJson)
      else Fulfilled(json.value)
  }

  // ---------------------------------------------------------------------
  // analyzeAllProducts

  /** The values of the fulfilled outcomes, in order (`filter` then `map`). */
  function FulfilledValues<T>(results: seq<Settled<T>>): (values: seq<T>)
    ensures |values| <= |results|
  {
    if results == [] then []
    else
      (if results[0].Fulfilled? then [results[0].value] else []) + FulfilledValues(results[1..])
  }

  /** Filtering distributes over concatenation: it keeps the relative order. */
  lemma {:induction false} FulfilledValuesAppend<T>(a: seq<Settled<T>>, b: seq<Settled<T>>)
    ensures FulfilledValues(a + b) == FulfilledValues(a) + FulfilledValues(b)
    decreases |a|
  {
    if a != [] {
      assert (a + b)[0] == a[0] && (a + b)[1..] == a[1..] + b;
      FulfilledValuesAppend(a[1..], b);
      var head := if a[0].Fulfilled? then [a[0].value] else [];
      assert FulfilledValues(a + b) == head + (FulfilledValues(a[1..]) + FulfilledValues(b));
      assert FulfilledValues(a) == head + FulfilledValues(a[1..]);
    } else {
      assert a + b == b;
    }
  }

  /** A value is kept exactly when some outcome fulfilled with it. */
  lemma {:induction false} FulfilledValuesMember<T>(results: seq<Settled<T>>, x: T)
    ensures x in FulfilledValues(results) <==> exists i :: 0 <= i < |results| && results[i] == Fulfilled(x)
    decreases |results|
  {
    if results != [] {
      FulfilledValuesMember(results[1..], x);
      if exists i :: 1 <= i < |results| && results[i] == Fulfilled(x) {
        var i :| 1 <= i < |results| && results[i] == Fulfilled(x);
        assert results[1..][i - 1] == Fulfilled(x);
      }
      if exists i :: 0 <= i < |results[1..]| && results[1..][i] == Fulfilled(x) {
        var i :| 0 <= i < |results[1..]| && results[1..][i] == Fulfilled(x);
        assert results[i + 1] == Fulfilled(x);
      }
    }
  }

  /** When nothing is rejected, every value is kept, position by position. */
  lemma {:induction false} FulfilledValuesAllFulfilled<T>(results: seq<Settled<T>>)
    requires forall i :: 0 <= i < |results| ==> results[i].Fulfilled?
    ensures |FulfilledValues(results)| == |results|
    ensures forall i :: 0 <= i < |results| ==> FulfilledValues(results)[i] == results[i].value
    decreases |results|
  {
    if results != [] {
      FulfilledValuesAllFulfilled(results[1..]);
    }
  }

  /** One rejected outcome removes nothing but itself: the values are those
      to its left followed by those to its right, whatever it was. */
  lemma RejectionIsolated<T>(results: seq<Settled<T>>, i: nat, reason: string)
    requires i < |results|
    ensures FulfilledValues(results[i := Rejected(reason)])
         == FulfilledValues(results[..i]) + FulfilledValues(results[i + 1..])
    ensures FulfilledValues(results)
         == FulfilledValues(results[..i]) + FulfilledValues([results[i]]) + FulfilledValues(results[i + 1..])
  {
    var r := results[i := Rejected(reason)];
    assert r == results[..i] + [Rejected(reason)] + results[i + 1..];
    FulfilledValuesAppend(results[..i] + [Rejected(reason)], results[i + 1..]);
    FulfilledValuesAppend(results[..i], [Rejected(reason)]);
    assert FulfilledValues<T>([Rejected(reason)]) == [];
    assert results == results[..i] + [results[i]] + results[i + 1..];
    FulfilledValuesAppend(results[..i] + [results[i]], results[i + 1..]);
    FulfilledValuesAppend(results[..i], [results[i]]);
  }

  /** One call of `analyzeAllProducts`: the requests it issues, one per id in
      order, and the analyses it resolves with. */
  datatype AnalyzeAllRun = AnalyzeAllRun(requests: seq<HttpRequest>, analyses: seq<Json<ProductAnalysis>>)

  /** How each per-id promise settled, given each `fetch` outcome. */
  function SettleAll(responses: seq<FetchOutcome<ProductAnalysis>>): (settled: seq<Settled<Json<ProductAnalysis>>>)
    ensures |settled| == |responses|
    ensures forall i :: 0 <= i < |responses| ==> settled[i] == AnalyzeResult(responses[i])
  {
    seq(|responses|, i requires 0 <= i < |responses| => AnalyzeResult(responses[i]))
  }

  /** `analyzeAllProducts(productIds)`, where `responses[i]` is what `fetch`
      produced for `productIds[i]`. It waits for every call to settle and
      resolves with the fulfilled values, in the order of the ids; a
      rejected call does not make it reject. */
  function AnalyzeAllProducts(baseUrl: string, productIds: seq<int>,
                              responses: seq<FetchOutcome<ProductAnalysis>>): (run: AnalyzeAllRun)
    requires |responses| == |productIds|
    ensures |run.requests| == |productIds|
    ensures forall i :: 0 <= i < |productIds| ==>
      run.requests[i] == PostJson(baseUrl + AnalyzePath, productIds[i])
    ensures run.analyses == FulfilledValues(SettleAll(responses))
    ensures |run.analyses| <= |productIds|
  {
    AnalyzeAllRun(seq(|productIds|, i requires 0 <= i < |productIds| => AnalyzeRequest(baseUrl, productIds[i])),
                  FulfilledValues(SettleAll(responses)))
  }

  /** Every value returned came from an ok response with a JSON body, and
      every such response contributes its value, whatever its shape. */
  lemma AnalyzeAllProductsMember(baseUrl: string, productIds: seq<int>,
                                 responses: seq<FetchOutcome<ProductAnalysis>>, a: Json<ProductAnalysis>)
    requires |responses| == |productIds|
    ensures a in AnalyzeAllProducts(baseUrl, productIds, responses).analyses <==>
      exists i :: 0 <= i < |responses| && responses[i].Response? && responses[i].ok
                  && responses[i].json == Some(a)
  {
    var settled := SettleAll(responses);
    FulfilledValuesMember(settled, a);
    if exists i :: 0 <= i < |settled| && settled[i] == Fulfilled(a) {
      var i :| 0 <= i < |settled| && settled[i] == Fulfilled(a);
      assert responses[i].json == Some(a);
    }
    if exists i :: 0 <= i < |responses| && responses[i].Response? && responses[i].ok
                   && responses[i].json == Some(a) {
      var i :| 0 <= i < |responses| && responses[i].Response? && responses[i].ok
               && responses[i].json == Some(a);
      assert settled[i] == Fulfilled(a);
    }
  }

  /** When every call succeeds, the analyses line up with the ids one for one. */
  lemma AnalyzeAllProductsAllOk(baseUrl: string, productIds: seq<int>,
                                responses: seq<FetchOutcome<ProductAnalysis>>)
    requires |responses| == |productIds|
    requires forall i :: 0 <= i < |responses| ==>
      responses[i].Response? && responses[i].ok && responses[i].json.Some?
    ensures |AnalyzeAllProducts(baseUrl, productIds, responses).analyses| == |productIds|
    ensures forall i :: 0 <= i < |productIds| ==>
      AnalyzeAllProducts(baseUrl, productIds, responses).analyses[i] == responses[i].json.value
  {
    FulfilledValuesAllFulfilled(SettleAll(responses));
  }

  // ---------------------------------------------------------------------
  // The cached API key

  /** The static state of `AIService`: the cached key and the storage it is
      mirrored in. */
  class AIService {
    var apiKey: Option<string>
    const storage: Browser.LocalStorage

    /** The cache starts out `null`. */
    constructor (storage: Browser.LocalStorage)
      ensures apiKey == None && this.storage == storage
    {
      apiKey := None;
      this.storage := storage;
    }

    /** `setApiKey(key)`: the cache becomes `key` first, then the stored copy.
        When the browser refuses the write, the exception escapes (`threw`)
        with the cache already set and storage unchanged, so the two copies
        then differ. */
    method SetApiKey(key: string, accepted: bool) returns (threw: bool)
      modifies this, storage
      ensures threw <==> !accepted
      ensures apiKey == Some(key)
      ensures accepted ==> storage.items == old(storage.items)[Config.ApiKeyStorageKey := key]
      ensures !accepted ==> storage.items == old(storage.items)
    {
      apiKey := Some(key);
      threw := storage.SetItem(Config.ApiKeyStorageKey, key, accepted);
    }

    /** `getApiKey()`: a truthy cached key is returned as it is; otherwise the
        stored key (or `null`) is loaded into the cache and returned. Storage
        is only read. */
    method GetApiKey() returns (key: Option<string>)
      modifies this
      ensures key == apiKey
      ensures JsString.TruthyOption(old(apiKey)) ==> apiKey == old(apiKey)
      ensures !JsString.TruthyOption(old(apiKey)) ==>
        apiKey == (if Config.ApiKeyStorageKey in storage.items
                   then Some(storage.items[Config.ApiKeyStorageKey]) else None)
      ensures storage.items == old(storage.items)
    {
      if !JsString.TruthyOption(apiKey) {
        apiKey := storage.GetItem(Config.ApiKeyStorageKey);
      }
      key := apiKey;
    }
  }

  /** After `setApiKey(k)` returns normally, `getApiKey()` returns `k`, for
      every `k`: a non-empty key from the cache, the empty key from storage,
      where `setApiKey` also put it. */
  method SetThenGetApiKey(service: AIService, k: string) returns (key: Option<string>)
    modifies service, service.storage
    ensures key == Some(k)
    ensures service.apiKey == Some(k)
  {
    var threw := service.SetApiKey(k, true);
    key := service.GetApiKey();
  }
}
