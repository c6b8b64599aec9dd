/** The sample backend's `ProductsController`: a fixed in-memory catalog, lookup
    by id, and the rule-based analysis (a recommendation chosen by category and
    an additive confidence score). Prices and scores are exact `real`s. */
module Backend {
  import opened Wrappers

  datatype Product = Product(id: int, name: string, category: string, price: real, description: string)

  /** The analysis returned by `POST /api/products/analyze`; `price` is the
      product's price rendered as currency text. */
  datatype ProductAnalysis = ProductAnalysis(
    productId: int,
    name: string,
    category: string,
    price: string,
    recommendation: string,
    confidenceScore: real)

  datatype AnalyzeRequest = AnalyzeRequest(productId: int)

  /** The two outcomes an action of the controller produces: 200 with a body, or 404. */
  datatype ActionResult<T> = Ok(value: T) | NotFound

  /** The static `_products` list. */
  const Catalog: seq<Product> := [
    Product(1, ".NET 8 Enterprise License", "Software", 999.99,
            "Enterprise-grade license for .NET 8 development framework."),
    Product(2, "OIDC Integration Package", "Service", 499.99,
            "Complete OIDC integration service with implementation support."),
    Product(3, "Cloud Hosting - Premium", "Infrastructure", 199.99,
            "Premium cloud hosting solution for .NET applications."),
    Product(4, "Developer Support Plan", "Support", 299.99,
            "24/7 developer support for your .NET applications."),
    Product(5, "Authentication Middleware", "Software", 149.99,
            "Advanced authentication middleware for .NET applications."),
    Product(6, "Identity Server Setup", "Service", 899.99,
            "Complete setup and configuration of Identity Server for your applications.")
  ]

  predicate HasId(products: seq<Product>, id: int) {
    exists i :: 0 <= i < |products| && products[i].id == id
  }

  predicate IdsDistinct(products: seq<Product>) {
    forall i, j :: 0 <= i < j < |products| ==> products[i].id != products[j].id
  }

  /** The catalog never repeats an id, so the first match is the only match. */
  lemma CatalogIdsDistinct()
    ensures IdsDistinct(Catalog)
    ensures forall i :: 0 <= i < |Catalog| ==> Catalog[i].id == i + 1
  {
  }

  // ---------------------------------------------------------------------
  // Lookup

  /** The position of the first product with the given id. */
  function FindIndex(products: seq<Product>, id: int): (r: Option<nat>)
    ensures r.None? <==> !HasId(products, id)
    ensures r.Some? ==> r.value < |products| && products[r.value].id == id
                        && forall j :: 0 <= j < r.value ==> products[j].id != id
    decreases |products|
  {
    if products == [] then None
    else if products[0].id == id then Some(0)
    else
      match FindIndex(products[1..], id)
      case None =>
        assert forall i :: 1 <= i < |products| ==> products[i] == products[1..][i - 1];
        None
      case Some(k) => Some(k + 1)
  }

  /** `_products.FirstOrDefault(p => p.Id == id)`. */
  function FirstOrDefault(products: seq<Product>, id: int): (r: Option<Product>)
    ensures r.None? <==> !HasId(products, id)
    ensures r.Some? ==> exists k :: (0 <= k < |products| && products[k] == r.value
                                     && r.value.id == id
                                     && forall j :: 0 <= j < k ==> products[j].id != id)
  {
    match FindIndex(products, id)
    case None => None
    case Some(k) => Some(products[k])
  }

  /** `GET /api/products/{id}`. */
  function GetById(id: int): (r: ActionResult<Product>)
    ensures r.NotFound? <==> !HasId(Catalog, id)
    ensures r.Ok? ==> r.value in Catalog && r.value.id == id
  {
    match FirstOrDefault(Catalog, id)
    case None => NotFound
    case Some(p) => Ok(p)
  }

  /** With distinct ids, the product `GetById` returns is the only one with that id. */
  lemma GetByIdUnique(id: int)
    ensures GetById(id).Ok? <==> 1 <= id <= 6
    ensures GetById(id).Ok? ==> GetById(id).value == Catalog[id - 1]
    ensures GetById(id).Ok? ==>
      forall i :: 0 <= i < |Catalog| && Catalog[i].id == id ==> Catalog[i] == GetById(id).value
  {
    CatalogIdsDistinct();
    if 1 <= id <= 6 {
      assert Catalog[id - 1].id == id;
    }
  }

  // ---------------------------------------------------------------------
  // Recommendation

  const DefaultRecommendation := "Standard recommendation based on customer feedback."

  /** The four named arms of the category switch, as a table. */
  const RecommendationTable: map<string, string> := map[
    "Software" := "Highly recommended for enterprise development teams. Consider bundling with support.",
    "Service" := "Recommended for organizations with complex identity requirements.",
    "Infrastructure" := "Essential for applications with high availability requirements.",
    "Support" := "Recommended for teams without dedicated DevOps personnel."
  ]

  /** `GetRecommendation`: a switch on the category with a default arm. */
  function GetRecommendation(product: Product): (r: string)
    ensures product.category in RecommendationTable ==> r == RecommendationTable[product.category]
    ensures product.category !in RecommendationTable ==> r == DefaultRecommendation
  {
    match product.category
    case "Software" => "Highly recommended for enterprise development teams. Consider bundling with support."
    case "Service" => "Recommended for organizations with complex identity requirements."
    case "Infrastructure" => "Essential for applications with high availability requirements."
    case "Support" => "Recommended for teams without dedicated DevOps personnel."
    case _ => DefaultRecommendation
  }

  /** Exactly four categories have their own message, and the default message
      differs from each of them, so the default arm is observable. */
  lemma RecommendationTableShape()
    ensures RecommendationTable.Keys == {"Software", "Service", "Infrastructure", "Support"}
    ensures DefaultRecommendation !in RecommendationTable.Values
  {
    assert RecommendationTable["Software"] != DefaultRecommendation;
  }

  // ---------------------------------------------------------------------
  // Confidence score

  const BaseScore: real := 0.75
  const ScoreCap: real := 0.97

  predicate IsPrivilegedCategory(category: string) {
    category == "Software" || category == "Service"
  }

  /** The price bonus: strict comparisons, so 500 earns 0.08 and 200 earns nothing. */
  function PriceBonus(price: real): (b: real)
    ensures b == 0.15 <==> price > 500.0
    ensures b == 0.08 <==> 200.0 < price <= 500.0
    ensures b == 0.0 <==> price <= 200.0
  {
    if price > 500.0 then 0.15 else if price > 200.0 then 0.08 else 0.0
  }

  function CategoryBonus(category: string): (b: real)
    ensures b == 0.07 <==> IsPrivilegedCategory(category)
    ensures b == 0.0 <==> !IsPrivilegedCategory(category)
  {
    if IsPrivilegedCategory(category) then 0.07 else 0.0
  }

  function Min(a: real, b: real): (m: real)
    ensures m <= a && m <= b && (m == a || m == b)
  {
    if a <= b then a else b
  }

  /** The score the controller computes: the base, the price bonus and the
      category bonus, capped. */
  function ConfidenceScore(price: real, category: string): (s: real)
    ensures BaseScore <= s <= ScoreCap
  {
    Min(BaseScore + PriceBonus(price) + CategoryBonus(category), ScoreCap)
  }

  /** `CalculateConfidenceScore`, which accumulates the bonuses in a local
      before taking `Math.Min` with the cap. */
  method CalculateConfidenceScore(product: Product) returns (score: real)
    ensures score == ConfidenceScore(product.price, product.category)
    ensures BaseScore <= score <= ScoreCap
  {
    var baseScore := 0.75;
    if product.price > 500.0 {
      baseScore := baseScore + 0.15;
    } else if product.price > 200.0 {
      baseScore := baseScore + 0.08;
    }
    if product.category == "Software" || product.category == "Service" {
      baseScore := baseScore + 0.07;
    }
    score := Min(baseScore, 0.97);
  }

  /** `POST /api/products/analyze`. The currency rendering of the price
      (`Price.ToString("C")`) is the parameter `formatPrice`. */
  method AnalyzeProduct(request: AnalyzeRequest, formatPrice: real -> string)
    returns (r: ActionResult<ProductAnalysis>)
    ensures r.NotFound? <==> !HasId(Catalog, request.productId)
    ensures r.Ok? ==> exists p :: (p in Catalog && p.id == request.productId
                                   && r.value == ProductAnalysis(p.id, p.name, p.category, formatPrice(p.price),
                                                                 GetRecommendation(p),
                                                                 ConfidenceScore(p.price, p.category)))
    ensures r.Ok? ==> r.value.productId == request.productId
                      && BaseScore <= r.value.confidenceScore <= ScoreCap
  {
    var found := FirstOrDefault(Catalog, request.productId);
    if found.None? {
      return NotFound;
    }
    var product := found.value;
    var score := CalculateConfidenceScore(product);
    r := Ok(ProductAnalysis(product.id, product.name, product.category, formatPrice(product.price),
                            GetRecommendation(product), score));
  }

  // ---------------------------------------------------------------------
  // Properties of the score

  /** The score in closed form, case by case on the price bands. */
  lemma ScoreByBand(price: real, category: string)
    ensures var c := CategoryBonus(category);
      && (price > 500.0 ==> ConfidenceScore(price, category) == 0.90 + c)
      && (200.0 < price <= 500.0 ==> ConfidenceScore(price, category) == 0.83 + c)
      && (price <= 200.0 ==> ConfidenceScore(price, category) == 0.75 + c)
  {
  }

  /** The uncapped sum never exceeds the cap: the largest sum,
      0.75 + 0.15 + 0.07, is exactly 0.97. So `Math.Min` never changes the
      score. (The same holds for the C# `double` sums under IEEE round to
      nearest: the six reachable sums round to at most the double 0.97.) */
  lemma CapNeverBinds(price: real, category: string)
    ensures BaseScore + PriceBonus(price) + CategoryBonus(category) <= ScoreCap
    ensures ConfidenceScore(price, category) == BaseScore + PriceBonus(price) + CategoryBonus(category)
  {
  }

  /** A privileged category above 500 reaches the cap; any other category at
      or below 200 gets exactly the base score. */
  lemma ScoreExtremes(price: real, category: string)
    ensures IsPrivilegedCategory(category) && price > 500.0 ==> ConfidenceScore(price, category) == 0.97
    ensures !IsPrivilegedCategory(category) && price <= 200.0 ==> ConfidenceScore(price, category) == 0.75
  {
  }

  /** The threshold values themselves fall in the lower band. */
  lemma ScoreAtThresholds(category: string)
    ensures ConfidenceScore(500.0, category) == 0.83 + CategoryBonus(category)
    ensures ConfidenceScore(200.0, category) == 0.75 + CategoryBonus(category)
  {
  }

  /** For a fixed category, a higher price never lowers the score. */
  lemma ScoreMonotoneInPrice(p1: real, p2: real, category: string)
    requires p1 <= p2
    ensures ConfidenceScore(p1, category) <= ConfidenceScore(p2, category)
  {
  }

  /** The scores of the six catalog products. */
  lemma CatalogScores()
    ensures ConfidenceScore(Catalog[0].price, Catalog[0].category) == 0.97
    ensures ConfidenceScore(Catalog[1].price, Catalog[1].category) == 0.90
    ensures ConfidenceScore(Catalog[2].price, Catalog[2].category) == 0.75
    ensures ConfidenceScore(Catalog[3].price, Catalog[3].category) == 0.83
    ensures ConfidenceScore(Catalog[4].price, Catalog[4].category) == 0.82
    ensures ConfidenceScore(Catalog[5].price, Catalog[5].category) == 0.97
  {
  }
}
