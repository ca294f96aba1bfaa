/**
 * The inventory table (app/inventory/InventoryTable.tsx): the three-way stock
 * status, the search-and-status filter over the product list, and the test
 * that decides whether a product icon is an image URL.
 */
module InventoryTable {
  import opened Wrappers
  import Text
  import Seqs

  /** A product row of the inventory page; the stock and reorder level may be null. */
  datatype InventoryProduct = InventoryProduct(
    id: string, name: string, stockQuantity: Option<int>, reorderLevel: Option<int>,
    icon: Option<string>, categoryName: Option<string>)

  datatype StockStatus = Out | Low | In

  /** The filter chips: "all", "in", "low", "out". */
  datatype StockFilter = All | InStock | LowStock | OutOfStock

  function Stock(p: InventoryProduct): int {
    p.stockQuantity.GetOr(0)
  }

  function Reorder(p: InventoryProduct): int {
    p.reorderLevel.GetOr(0)
  }

  /**
   * `status`: out of stock whenever the stock (null read as 0) is not
   * positive, whatever the reorder level; low when positive but under the
   * reorder level (null read as 0); in stock otherwise.
   */
  function Status(p: InventoryProduct): (s: StockStatus)
    ensures s == Out <==> Stock(p) <= 0
    ensures s == Low <==> 0 < Stock(p) < Reorder(p)
    ensures s == In <==> Stock(p) > 0 && Stock(p) >= Reorder(p)
  {
    if Stock(p) <= 0 then Out
    else if Stock(p) < Reorder(p) then Low
    else In
  }

  /** The search query as the filter uses it: trimmed, then lower-cased. */
  function NormalizedQuery(query: string): string {
    Text.Lower(Text.Trim(query))
  }

  /** An empty normalized query matches every name; otherwise it must occur in the lower-cased name. */
  predicate MatchesQuery(p: InventoryProduct, query: string) {
    var q := NormalizedQuery(query);
    q == [] || Text.Contains(Text.Lower(p.name), q)
  }

  /** The callback passed to `products.filter`, with its own stock comparisons. */
  predicate Keep(p: InventoryProduct, query: string, filter: StockFilter) {
    if !MatchesQuery(p, query) then false
    else match filter
      case InStock => Stock(p) > 0 && Stock(p) >= Reorder(p)
      case LowStock => Stock(p) > 0 && Stock(p) < Reorder(p)
      case OutOfStock => Stock(p) <= 0
      case All => true
  }

  /** The `filtered` list. */
  function Filtered(products: seq<InventoryProduct>, query: string, filter: StockFilter): seq<InventoryProduct> {
    Seqs.Filter(products, p => Keep(p, query, filter))
  }

  /** The status a filter chip selects. */
  function Selects(filter: StockFilter): StockStatus
    requires filter != All
  {
    match filter
    case InStock => In
    case LowStock => Low
    case OutOfStock => Out
  }

  /** The three statuses are exhaustive and mutually exclusive. */
  lemma StatusExclusive(p: InventoryProduct)
    ensures (Stock(p) <= 0) || (0 < Stock(p) < Reorder(p)) || (Stock(p) > 0 && Stock(p) >= Reorder(p))
    ensures !((Stock(p) <= 0) && (0 < Stock(p) < Reorder(p)))
    ensures !((Stock(p) <= 0) && (Stock(p) > 0))
    ensures !((Stock(p) < Reorder(p)) && (Stock(p) >= Reorder(p)))
  {
  }

  /**
   * The filter's own stock tests agree with `status`: "in", "low" and "out"
   * keep exactly the matching products of that status, and "all" keeps every
   * matching product.
   */
  lemma KeepAgreesWithStatus(p: InventoryProduct, query: string, filter: StockFilter)
    ensures filter != All ==> (Keep(p, query, filter) <==> MatchesQuery(p, query) && Status(p) == Selects(filter))
    ensures filter == All ==> (Keep(p, query, filter) <==> MatchesQuery(p, query))
  {
  }

  /** A query that is blank once trimmed matches everything; any other query is a substring test on the lower-cased name. */
  lemma QueryMatching(p: InventoryProduct, query: string)
    ensures Text.AllSpace(query) ==> MatchesQuery(p, query)
    ensures !Text.AllSpace(query) ==>
      (MatchesQuery(p, query) <==> exists k :: Text.OccursAt(Text.Lower(p.name), Text.Lower(Text.Trim(query)), k))
  {
    Text.TrimBlank(query);
    Text.ContainsAt(Text.Lower(p.name), NormalizedQuery(query));
  }

  /**
   * The filtered list keeps the input order, and a product of the input is in
   * it exactly when it passes the query and the status test.
   */
  lemma FilteredContents(products: seq<InventoryProduct>, query: string, filter: StockFilter)
    ensures Seqs.IsSubseq(Filtered(products, query, filter), products)
    ensures forall i :: 0 <= i < |products| ==>
      (products[i] in Filtered(products, query, filter) <==> Keep(products[i], query, filter))
  {
    Seqs.FilterIsSubseq(products, p => Keep(p, query, filter));
  }

  /** With the "all" chip and a blank query, the whole list is shown. */
  lemma FilteredAllBlank(products: seq<InventoryProduct>, query: string)
    requires Text.AllSpace(query)
    ensures Filtered(products, query, All) == products
  {
    forall p | p in products ensures Keep(p, query, All) {
      QueryMatching(p, query);
    }
    Seqs.FilterAll(products, p => Keep(p, query, All));
  }

  /** The test `/^(https?:\/\/|\/)/` in the shape of the pattern: `http`, an optional `s`, then `://`; or a `/`. */
  predicate IsUrl(icon: Option<string>) {
    match icon
    case None => false
    case Some(s) =>
      (Text.StartsWith(s, "http")
        && (Text.StartsWith(s[4..], "://") || Text.StartsWith(s[4..], "s://")))
      || Text.StartsWith(s, "/")
  }

  /** An icon is an image URL exactly when it starts with `http://`, `https://` or `/`. */
  lemma IsUrlPrefixes(s: string)
    ensures IsUrl(Some(s))
        <==> Text.StartsWith(s, "http://") || Text.StartsWith(s, "https://") || Text.StartsWith(s, "/")
  {
    if Text.StartsWith(s, "http") {
      if Text.StartsWith(s[4..], "://") {
        assert s[..7] == s[..4] + s[4..][..3];
      }
      if Text.StartsWith(s[4..], "s://") {
        assert s[..8] == s[..4] + s[4..][..4];
      }
    }
    if Text.StartsWith(s, "http://") {
      assert s[..4] == s[..7][..4];
      assert s[4..][..3] == s[..7][4..];
    }
    if Text.StartsWith(s, "https://") {
      assert s[..4] == s[..8][..4];
      assert s[4..][..4] == s[..8][4..];
    }
  }
}
