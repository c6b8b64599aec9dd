/** What the `ProductAnalysis` card shows for a score computed by the backend's
    rule-based analysis. */
module EndToEnd {
  import Backend
  import AnalysisView

  /** A backend score is never Low; it is High exactly when the price is above
      500, or above 200 in a privileged category; Medium otherwise. */
  lemma BackendLevel(price: real, category: string)
    ensures AnalysisView.ConfidenceLevelOf(Backend.ConfidenceScore(price, category)) != AnalysisView.Low
    ensures AnalysisView.ConfidenceLevelOf(Backend.ConfidenceScore(price, category)) == AnalysisView.High
      <==> price > 500.0 || (price > 200.0 && Backend.IsPrivilegedCategory(category))
  {
    Backend.ScoreByBand(price, category);
  }

  /** The levels of the six catalog products: 1, 2 and 6 are High, the rest Medium. */
  lemma CatalogLevels()
    ensures forall i :: 0 <= i < |Backend.Catalog| ==>
      var p := Backend.Catalog[i];
      AnalysisView.ConfidenceLevelOf(Backend.ConfidenceScore(p.price, p.category))
        == (if p.id in {1, 2, 6} then AnalysisView.High else AnalysisView.Medium)
  {
    Backend.CatalogScores();
  }
}
