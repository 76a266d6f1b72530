/** What the catalog pipelines exchange (backend/app/models/catalog_tags.py, attribute_prediction.py). */
module Catalog {
  import opened Facets

  type Unit = r: real | 0.0 <= r <= 1.0

  datatype Source = TextSource | ImageSource | Hybrid

  datatype Prediction = Prediction(attribute: string, value: string, confidence: Unit, source: Source)

  datatype Tag = Tag(tag: string, confidence: Unit, source: Source)

  /** `s.strip().lower()`; the fold of the tables stands for lower-casing here. */
  function TagKey(t: CharTables, s: string): string {
    Casefold(t, Strip(t, s))
  }
}
