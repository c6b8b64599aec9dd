# Product catalog and analysis logic of the NetSaas sample site

This project is a Dafny model of the deterministic logic in a marketing site
for a SaaS product. That logic sits in three places:

- **The sample ASP.NET backend's `ProductsController`** (module `Backend`). It holds a
  fixed catalog of six products and looks a product up by id, answering
  NotFound when the id is absent. Its rule-based analysis picks a
  recommendation by category and computes a confidence score: base 0.75, plus
  0.15 above a price of 500 or else 0.08 above 200, plus 0.07 for "Software"
  and "Service", capped at 0.97. Prices and scores are exact `real`s.
- **The React frontend's components:**
  - the editable product table of `Product.tsx` (module `ProductComponent`). It is
    a class whose fields are the four state variables `rows`, `editRow`,
    `editData` and `newRow`, with one method per handler;
  - the confidence-level badge and view choice of `ProductAnalysis.tsx` (module
    `AnalysisView`);
  - the API-key dialog of `ApiKeySettings.tsx` (module `ApiKeyDialog`, a class
    over `open` and the typed key).
- **The frontend's service layer:**
  - `aiService.ts` (module `AiClient`): URL and request construction, how each
    response settles, the `Promise.allSettled` filtering of `analyzeAllProducts`,
    and the static key cache as class `AIService`;
  - `config.ts` (module `Config`): where the base URL and the OpenAI key come from.

Supporting modules:

- `JsString` models the JavaScript built-ins the frontend relies on:
  - string truthiness;
  - `Number.prototype.toString` on a natural number, with a round-trip lemma;
  - `String.prototype.trim` over the ECMAScript white-space and line-terminator
    code points.
- `Browser` models `localStorage` as a class over a map.
- `EndToEnd` composes the backend score with the frontend classifier: a score
  from the backend is never shown as Low.

Network calls are not made. Each `fetch` becomes a request value the model
builds and an outcome (`FetchOutcome`) it is given. The build environment
(`import.meta.env`) is a parameter. `localStorage` is a parameter where
`getOpenAIApiKey` reads it (`storedKey`), and an object of class
`Browser.LocalStorage` where `AIService` reads and writes it; whether the
browser accepts a write is an input of `setItem`.

Two points about the analysis as the code has it:

- The controller's score has exactly two strict price thresholds (> 500,
  > 200), one pair of privileged categories ("Software"/"Service") and a cap
  of 0.97 with no lower clamp. The score can never fall below the base 0.75.
- The frontend never calls a language model. Its `analyzeProduct` only
  calls the backend, and `analyzeAllProducts` sends every request at once,
  with no batching.

Three facts the proofs bring out:

- With exact arithmetic the largest sum is 0.75 + 0.15 + 0.07 = 0.97 exactly.
  So the cap `Math.Min(baseScore, 0.97)` never changes the score
  (`Backend.CapNeverBinds`). The same holds for the C# `double` sums: under
  IEEE round to nearest, 0.75 + 0.15 + 0.07 rounds to exactly the double
  0.97, and every other reachable sum is smaller.
- In `analyzeProduct` the two URL branches agree: '' + path is the path, so
  the URL is always base + "/api/products/analyze" (`AiClient.AnalyzeUrl`).
- The table assigns ids as `rows.length + 1`, so ids are not unique after a
  delete. Deleting row "1" of the initial table and then adding a row gives
  two rows with id "4". Saving an edit of either one then overwrites both
  (`ProductComponent.DuplicateIdAfterDelete`). This is modelled as the code
  behaves.

## Model

| member | source | states |
|---|---|---|
| `Backend.CatalogIdsDistinct` | backend/NetSaas.Api/Controllers/ProductsController.cs:11-19 | the six catalog products have ids 1..6 in order, pairwise distinct |
| `Backend.FindIndex` | backend/NetSaas.Api/Controllers/ProductsController.cs:38 | no index exactly when no product has the id; otherwise the index of a product with the id before which none has it (the first match) |
| `Backend.FirstOrDefault` | backend/NetSaas.Api/Controllers/ProductsController.cs:38 | `null` exactly when no product has the id; otherwise the product at the first position with that id |
| `Backend.GetById` | backend/NetSaas.Api/Controllers/ProductsController.cs:36-48 | NotFound exactly when no catalog product has the id; otherwise a catalog product with that id |
| `Backend.GetByIdUnique` | backend/NetSaas.Api/Controllers/ProductsController.cs:13-18 | lookup succeeds exactly for ids 1..6, returns catalog entry id-1, and that is the only product with the id |
| `Backend.GetRecommendation` | backend/NetSaas.Api/Controllers/ProductsController.cs:74-84 | total: a category in the four-entry table gets its message, every other string the default message |
| `Backend.RecommendationTableShape` | backend/NetSaas.Api/Controllers/ProductsController.cs:76-83 | exactly Software, Service, Infrastructure and Support have their own message, and the default message is none of them |
| `Backend.PriceBonus` | backend/NetSaas.Api/Controllers/ProductsController.cs:92-99 | bonus 0.15 iff price > 500, 0.08 iff 200 < price <= 500, 0 iff price <= 200 (strict thresholds) |
| `Backend.CategoryBonus` | backend/NetSaas.Api/Controllers/ProductsController.cs:102-105 | bonus 0.07 iff the category is Software or Service, 0 otherwise |
| `Backend.ConfidenceScore` | backend/NetSaas.Api/Controllers/ProductsController.cs:86-109 | the score always lies in [0.75, 0.97] |
| `Backend.Min` | backend/NetSaas.Api/Controllers/ProductsController.cs:108 | `Math.Min`: no greater than either argument, and equal to one of them |
| `Backend.CalculateConfidenceScore` | backend/NetSaas.Api/Controllers/ProductsController.cs:86-109 | the step-by-step accumulation in a local, then `Math.Min`, yields the score of `ConfidenceScore`, within [0.75, 0.97] |
| `Backend.AnalyzeProduct` | backend/NetSaas.Api/Controllers/ProductsController.cs:50-72 | NotFound iff the requested id is not in the catalog; otherwise the catalog product's id, name and category, its formatted price, its recommendation and its score |
| `Backend.ScoreByBand` | backend/NetSaas.Api/Controllers/ProductsController.cs:89-105 | the score is 0.90, 0.83 or 0.75 for the three price bands, plus the category bonus |
| `Backend.CapNeverBinds` | backend/NetSaas.Api/Controllers/ProductsController.cs:107-108 | with exact arithmetic the uncapped sum never exceeds 0.97, so the cap leaves the score unchanged |
| `Backend.ScoreExtremes` | backend/NetSaas.Api/Controllers/ProductsController.cs:89-108 | Software/Service above 500 scores exactly 0.97; any other category at or below 200 scores exactly 0.75 |
| `Backend.ScoreAtThresholds` | backend/NetSaas.Api/Controllers/ProductsController.cs:92-99 | price 500 gets the 0.08 bonus and price 200 gets none |
| `Backend.ScoreMonotoneInPrice` | backend/NetSaas.Api/Controllers/ProductsController.cs:92-99 | for a fixed category a higher price never lowers the score |
| `Backend.CatalogScores` | backend/NetSaas.Api/Controllers/ProductsController.cs:13-18 | the six catalog products score 0.97, 0.90, 0.75, 0.83, 0.82 and 0.97 |
| `ProductComponent.With` | src/components/Product.tsx:74-82 | `{ ...row, [key]: value }` sets the named cell to the value and keeps every other cell |
| `ProductComponent.AddedRow` | src/components/Product.tsx:39-40 | the appended row has id `(length+1).toString()`, the draft's name, category and price, stock or '∞', status or 'Active' |
| `ProductComponent.RemoveId` | src/components/Product.tsx:53 | the filtered list is no longer than the input and holds no row with the deleted id |
| `ProductComponent.RemoveIdAppend` | src/components/Product.tsx:53 | filtering distributes over concatenation, so surviving rows keep their order |
| `ProductComponent.RemoveIdMember` | src/components/Product.tsx:53 | a row survives exactly when it was present and its id differs from the deleted id |
| `ProductComponent.RemoveIdAbsent` | src/components/Product.tsx:52-54 | deleting an absent id leaves the rows unchanged; deleting a present one shortens them |
| `ProductComponent.ReplaceId` | src/components/Product.tsx:68 | same length; each row with the edited id becomes the draft, every other row is kept in place |
| `ProductComponent.SaveUnchangedIsIdentity` | src/components/Product.tsx:56-72 | with unique ids, saving a row's unchanged copy gives back the same rows |
| `ProductComponent.InitialRowsIdsUnique` | src/components/Product.tsx:19-24 | the four initial rows have distinct ids |
| `ProductComponent.DuplicateIdAfterDelete` | src/components/Product.tsx:39-40 | delete of row "1" then add yields two rows with id "4", and a save of id "4" overwrites both |
| `ProductComponent.ProductTable.constructor` | src/components/Product.tsx:19-35 | the four initial rows, no edit in progress, an empty draft |
| `ProductComponent.ProductTable.HandleAddRow` | src/components/Product.tsx:37-50 | with name, category and price filled in, appends `AddedRow` and resets the draft to all-empty; otherwise rows and draft unchanged; edit state untouched |
| `ProductComponent.ProductTable.HandleDeleteRow` | src/components/Product.tsx:52-54 | rows become `RemoveId(rows, id)`; nothing else changes |
| `ProductComponent.ProductTable.HandleEditStart` | src/components/Product.tsx:56-59 | editRow is the row's id, editData a copy of the row; rows and draft untouched |
| `ProductComponent.ProductTable.HandleEditCancel` | src/components/Product.tsx:61-64 | both edit fields cleared; rows and draft untouched |
| `ProductComponent.ProductTable.HandleEditSave` | src/components/Product.tsx:66-72 | with a draft and a truthy edited id, rows become `ReplaceId` and the edit state is cleared; otherwise nothing changes; in a state where `editRow` and `editData` are set together (`Valid`), a truthy edited id alone decides the save |
| `ProductComponent.ProductTable.HandleEditChange` | src/components/Product.tsx:74-78 | changes only the named cell of the draft; does nothing without a draft |
| `ProductComponent.ProductTable.HandleNewRowChange` | src/components/Product.tsx:80-82 | changes only the named cell of the new-row draft |
| `ProductComponent.AddKeepsExistingRows` | src/components/Product.tsx:40 | a successful add appends one row with the length-based id and keeps the existing rows as a prefix |
| `ProductComponent.EditThenSaveUnchanged` | src/components/Product.tsx:56-72 | starting an edit and saving it untouched restores the table when ids are unique and non-empty, and leaves edit mode |
| `AnalysisView.ConfidenceLevelOf` | src/components/ProductAnalysis.tsx:56-60 | High iff score >= 0.85, Medium iff 0.75 <= score < 0.85, Low iff score < 0.75 |
| `AnalysisView.ConfidenceLevelMonotone` | src/components/ProductAnalysis.tsx:56-60 | raising the score never lowers the level |
| `AnalysisView.SelectView` | src/components/ProductAnalysis.tsx:21-60 | loading wins over everything; then a null analysis gives the empty view; otherwise the result view with the analysis and its level |
| `AnalysisView.SelectViewCases` | src/components/ProductAnalysis.tsx:22-53 | each of the three views is chosen by exactly one combination of isLoading and analysis |
| `EndToEnd.BackendLevel` | src/components/ProductAnalysis.tsx:56-60 | a backend score is never Low, and High iff price > 500 or price > 200 in Software/Service |
| `EndToEnd.CatalogLevels` | backend/NetSaas.Api/Controllers/ProductsController.cs:13-18 | catalog products 1, 2 and 6 show High, the others Medium |
| `Config.GetApiBaseUrl` | src/utils/config.ts:2-12 | the environment URL when it is truthy, otherwise '' |
| `Config.ApiBaseUrlEmptyIff` | src/utils/config.ts:4-11 | the base URL is '' exactly when the environment gives none or an empty one, and is otherwise the environment's value |
| `Config.GetOpenAIApiKey` | src/utils/config.ts:14-16 | the environment key if truthy, else the stored key if truthy, else null |
| `Config.OpenAIApiKeyShape` | src/utils/config.ts:15 | never the empty string; present exactly when one of the sources is truthy, and then equal to one of them |
| `AiClient.GetProductsRequest` | src/services/aiService.ts:26 | a GET of base + "/api/products" |
| `AiClient.ProductsUrlFromEnvironment` | src/services/aiService.ts:26 | with a truthy environment URL the products URL is that URL + "/api/products", otherwise the bare relative path |
| `AiClient.GetProductsResult` | src/services/aiService.ts:24-35 | fulfilled exactly for an ok response whose body is JSON, with that value whatever its shape; a body that is not JSON rejects; a non-ok response rejects with "Error fetching products: " and the status text; a network failure rejects with its reason |
| `AiClient.AnalyzeUrl` | src/services/aiService.ts:40-41 | both branches give base + "/api/products/analyze" |
| `AiClient.AnalyzeUrlFromEnvironment` | src/services/aiService.ts:40-41 | with a truthy environment URL the analyze URL is that URL + path, otherwise the bare path |
| `AiClient.AnalyzeRequest` | src/services/aiService.ts:45-51 | a JSON POST to the analyze URL whose body carries exactly the given product id |
| `AiClient.AnalyzeResult` | src/services/aiService.ts:53-63 | fulfilled exactly for an ok response whose body is JSON, with that value whatever its shape; a body that is not JSON rejects; a non-ok response rejects with status, status text and body text, never with a value; network failures reject |
| `AiClient.FulfilledValues` | src/services/aiService.ts:76-80 | never more values than outcomes |
| `AiClient.FulfilledValuesAppend` | src/services/aiService.ts:76-80 | filtering distributes over concatenation, so the values keep the order of the outcomes |
| `AiClient.FulfilledValuesMember` | src/services/aiService.ts:76-80 | a value is kept exactly when some outcome fulfilled with it |
| `AiClient.FulfilledValuesAllFulfilled` | src/services/aiService.ts:71-80 | with no rejection, every value is kept in its position |
| `AiClient.RejectionIsolated` | src/services/aiService.ts:70-80 | a rejected outcome removes only itself: the values are those before it followed by those after it |
| `AiClient.SettleAll` | src/services/aiService.ts:71-73 | one settled outcome per response, each as `analyzeProduct` settles it |
| `AiClient.AnalyzeAllProducts` | src/services/aiService.ts:66-95 | one analyze request per id in order; resolves with the fulfilled values in order, at most as many as ids |
| `AiClient.AnalyzeAllProductsMember` | src/services/aiService.ts:71-80 | a value is returned exactly when some response was ok with that JSON body, including a body of another shape than `ProductAnalysis` |
| `AiClient.AnalyzeAllProductsAllOk` | src/services/aiService.ts:71-80 | when every response is ok and its body is JSON, the values line up with the ids one for one |
| `AiClient.AIService.constructor` | src/services/aiService.ts:22 | the cached key starts out null |
| `AiClient.AIService.SetApiKey` | src/services/aiService.ts:97-100 | the cache always becomes the key; the stored entry 'openai_api_key' becomes it too when the browser accepts the write, otherwise storage is unchanged and the error escapes |
| `AiClient.AIService.GetApiKey` | src/services/aiService.ts:102-107 | a truthy cache is returned unchanged; otherwise the stored value (or null) is loaded into the cache and returned; storage is not written |
| `AiClient.SetThenGetApiKey` | src/services/aiService.ts:97-107 | after setting any key k, getting the key returns k (a non-empty k from the cache, '' through storage) |
| `Browser.LocalStorage.constructor` | src/services/aiService.ts:97-107 | the storage the service reads and writes starts with exactly the given entries |
| `Browser.LocalStorage.GetItem` | src/services/aiService.ts:104 | the stored string when the key is present, `null` exactly when it is absent |
| `Browser.LocalStorage.SetItem` | src/services/aiService.ts:99 | an accepted write maps the key to the value and keeps every other entry; a refused one (`QuotaExceededError`) throws and stores nothing |
| `ApiKeyDialog.ApiKeySettings.constructor` | src/components/ApiKeySettings.tsx:10-11 | the dialog starts closed with an empty field |
| `ApiKeyDialog.ApiKeySettings.HandleOpenChange` | src/components/ApiKeySettings.tsx:22 | sets `open` and nothing else |
| `ApiKeyDialog.ApiKeySettings.HandleInputChange` | src/components/ApiKeySettings.tsx:42 | the field holds the typed text; `open` unchanged |
| `ApiKeyDialog.ApiKeySettings.HandleSaveApiKey` | src/components/ApiKeySettings.tsx:13-19 | blank input changes nothing (field, open, cache, storage); otherwise the trimmed key is cached, and when the browser stores it the dialog closes and the field is cleared; when it refuses, the handler throws with the dialog, its text and storage unchanged |
| `ApiKeyDialog.SavedKeyIsClean` | src/components/ApiKeySettings.tsx:14-15 | a key is saved exactly when the input is not all white space, and then it has no white space at either end and is its own trim |
| `ApiKeyDialog.SaveThenReadConfiguredKey` | src/components/ApiKeySettings.tsx:13-17 | after a save with no environment key, `getOpenAIApiKey` reads back the trimmed input |
| `JsString.NatToString` | src/components/Product.tsx:39 | the decimal rendering is non-empty, all digits, with no leading zero |
| `JsString.NatToStringRoundTrip` | src/components/Product.tsx:39 | reading the rendering back gives the number |
| `JsString.NatToStringInjective` | src/components/Product.tsx:39 | distinct lengths give distinct id strings |
| `JsString.Trim` | src/components/ApiKeySettings.tsx:14 | the result is empty or starts and ends with a non-white-space character |
| `JsString.TrimIsSlice` | src/components/ApiKeySettings.tsx:14 | the result is one contiguous slice of the input with only white space outside it |
| `JsString.TrimEmptyIff` | src/components/ApiKeySettings.tsx:14 | the result is empty exactly when the input is all white space |
| `JsString.TrimIdempotent` | src/components/ApiKeySettings.tsx:14-15 | trimming twice is trimming once |

## Left out

- The static marketing components have nothing to state: Hero, Features,
  Pricing, Testimonials, CallToAction, Index, and the Navbar menu toggle.
  The same goes for all JSX rendering, including the percentage
  `Math.round(score * 100)` and the progress bar value.
- `Program.cs` is framework wiring: dependency injection, Swagger, CORS and
  JWT. Its health endpoint only returns a wall-clock time.
- `ProductsController.GetAll` and the constructor only return the static list
  or store a logger. All `ILogger`/`console` logging is left out.
- Transport and I/O are inputs, not behaviour: `fetch`, HTTP status plumbing,
  JSON (de)serialisation, `import.meta.env` and the persistence of
  `localStorage`.
- The concurrency of `Promise.allSettled` is left out. Only the sequence of
  settled outcomes, in the order of the ids, is modelled. A call that never
  settles is not modelled: `fetch` has no time-out, so the source would then
  never resolve.
- Browser.LocalStorage.GetItem: reading `localStorage` when the browser
  blocks storage throws `SecurityError`, in `getApiKey` (aiService.ts:104)
  and in `getOpenAIApiKey` (config.ts:15). The model's storage is always
  reachable, so that error path is not modelled.
- Backend.AnalyzeProduct: the currency rendering `Price.ToString("C")` depends
  on the server's culture. It is the parameter `formatPrice`, not a model.
- Backend.ConfidenceScore: scores are exact reals, not C# `double`. Every
  constant is an exact hundredth, so only binary rounding is left out. The
  rounding moves a sum by at most one unit in the last place (0.75 + 0.08 +
  0.07 gives the double 0.8999999999999999), which is far from the 0.85 and
  0.75 thresholds of the frontend's classifier.
- AiClient.GetProductsResult: the body is given already decoded. A body that
  is not valid JSON rejects with the fixed message `InvalidJson`, not with
  the engine's `SyntaxError` text. A JSON value of another shape than the
  declared one is kept only as its text (`Untyped`), not decoded.
- AiClient.AnalyzeResult: the same holds for a body that is not valid JSON
  and for a JSON value of another shape. A failure of `response.text()`
  itself is not modelled.
- AnalysisView.SelectView: the card is given a `ProductAnalysis`. What it
  renders for a value of another shape, whose fields read as `undefined`,
  is not modelled.
- AiClient.AnalyzeAllProducts: each id's response is an input, so two calls
  for the same id may differ, as on a real network. The logging of rejected
  outcomes is left out. The outer `try/catch` is left out too: nothing in the
  filtering can throw.
- React applies `setX` updates after the handler returns. The model applies
  them at once. This gives the same result because each handler reads only
  the state from before its own updates.
- The table's ids and prices are opaque display strings such as '$599'.
