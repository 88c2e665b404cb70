/** The public product dashboard: the search and status filter effect and
    the active and expired counts. */
module Dashboard {
  import opened Wrappers
  import opened Seqs
  import opened Text
  import opened Entities
  import opened AdminProductList

  /** The lower-cased name or description contains the lower-cased term. */
  predicate SearchMatches(p: CatalogProduct, term: string)
  {
    Includes(Lower(p.name), Lower(term)) || Includes(Lower(p.description), Lower(term))
  }

  /** `isExpired = now >= endTime`. */
  predicate PastEndTime(p: CatalogProduct, now: int)
  {
    now >= p.time
  }

  /** The status step's callback for 'active' and 'expired'. */
  predicate StatusKeeps(p: CatalogProduct, status: StatusFilter, now: int)
  {
    if status == Expired then PastEndTime(p, now) else !PastEndTime(p, now)
  }

  /** What the effect shows: a product is listed when the term is empty or
      matches it, and when the status is 'all' or agrees with the product's
      end time. */
  predicate Shown(p: CatalogProduct, term: string, status: StatusFilter, now: int)
  {
    (term == "" || SearchMatches(p, term)) && (status == All || StatusKeeps(p, status, now))
  }

  /** The products the dashboard lists, in their order. */
  function Visible(products: seq<CatalogProduct>, term: string, status: StatusFilter, now: int): (r: seq<CatalogProduct>)
    ensures IsSubseq(r, products)
    ensures forall i :: 0 <= i < |r| ==> Shown(r[i], term, status, now)
    ensures forall i :: 0 <= i < |products| && Shown(products[i], term, status, now) ==> products[i] in r
    ensures forall x :: multiset(r)[x] == if Shown(x, term, status, now) then multiset(products)[x] else 0
  {
    FilterCounts((p: CatalogProduct) => Shown(p, term, status, now), products);
    Filter((p: CatalogProduct) => Shown(p, term, status, now), products)
  }

  /** The search step on its own: every product without a term. */
  lemma SearchStep(products: seq<CatalogProduct>, term: string)
    ensures Filter((p: CatalogProduct) => term == "" || SearchMatches(p, term), products)
            == if term != "" then Filter((p: CatalogProduct) => SearchMatches(p, term), products) else products
  {
    if term != "" {
      FilterCongruent((p: CatalogProduct) => SearchMatches(p, term), (p: CatalogProduct) => term == "" || SearchMatches(p, term), products);
    } else {
      FilterAll((p: CatalogProduct) => term == "" || SearchMatches(p, term), products);
    }
  }

  /** The status step on its own: every product for 'all'. */
  lemma StatusStep(products: seq<CatalogProduct>, status: StatusFilter, now: int)
    ensures Filter((p: CatalogProduct) => status == All || StatusKeeps(p, status, now), products)
            == if status != All then Filter((p: CatalogProduct) => StatusKeeps(p, status, now), products) else products
  {
    if status != All {
      FilterCongruent((p: CatalogProduct) => StatusKeeps(p, status, now), (p: CatalogProduct) => status == All || StatusKeeps(p, status, now), products);
    } else {
      FilterAll((p: CatalogProduct) => status == All || StatusKeeps(p, status, now), products);
    }
  }

  /** The two steps one after the other list exactly the visible products. */
  lemma StepsAreVisible(products: seq<CatalogProduct>, term: string, status: StatusFilter, now: int)
    ensures Filter((p: CatalogProduct) => status == All || StatusKeeps(p, status, now),
                   Filter((p: CatalogProduct) => term == "" || SearchMatches(p, term), products))
            == Visible(products, term, status, now)
  {
    FilterCompose((p: CatalogProduct) => term == "" || SearchMatches(p, term),
                  (p: CatalogProduct) => status == All || StatusKeeps(p, status, now),
                  (p: CatalogProduct) => Shown(p, term, status, now), products);
  }

  /** The effect's two conditional steps, as the page runs them. */
  function Stepwise(products: seq<CatalogProduct>, term: string, status: StatusFilter, now: int): seq<CatalogProduct>
  {
    var searched := if term != "" then Filter((p: CatalogProduct) => SearchMatches(p, term), products) else products;
    if status != All then Filter((p: CatalogProduct) => StatusKeeps(p, status, now), searched) else searched
  }

  /** Running the two steps in turn lists exactly the visible products. */
  lemma StepwiseIsVisible(products: seq<CatalogProduct>, term: string, status: StatusFilter, now: int)
    ensures Stepwise(products, term, status, now) == Visible(products, term, status, now)
  {
    SearchStep(products, term);
    var searched := if term != "" then Filter((p: CatalogProduct) => SearchMatches(p, term), products) else products;
    StatusStep(searched, status, now);
    StepsAreVisible(products, term, status, now);
  }

  /** The page's state. */
  class DashboardPage {
    var products: seq<CatalogProduct>
    var filteredProducts: seq<CatalogProduct>
    var isLoading: bool
    var searchTerm: string
    var filterStatus: StatusFilter

    constructor ()
      ensures products == [] && filteredProducts == [] && isLoading && searchTerm == "" && filterStatus == All
    {
      products, filteredProducts, isLoading, searchTerm, filterStatus := [], [], true, "", All;
    }

    /** `fetchProducts`: both lists take the data; a failed call keeps them. */
    method FetchProducts(data: Option<seq<CatalogProduct>>)
      modifies this
      ensures data.Some? ==> products == data.value && filteredProducts == data.value
      ensures data.None? ==> products == old(products) && filteredProducts == old(filteredProducts)
      ensures !isLoading && searchTerm == old(searchTerm) && filterStatus == old(filterStatus)
    {
      if data.Some? {
        products := data.value;
        filteredProducts := data.value;
      }
      isLoading := false;
    }

    /** The filter effect at time `now`: the search step, then the status
        step, each applied only when set. The result is exactly the
        products `Shown` keeps, in their order. */
    method ApplyFilters(now: int)
      modifies this
      ensures filteredProducts == Visible(products, searchTerm, filterStatus, now)
      ensures products == old(products) && isLoading == old(isLoading)
      ensures searchTerm == old(searchTerm) && filterStatus == old(filterStatus)
    {
      var term, status := searchTerm, filterStatus;
      var filtered := products;
      if term != "" {
        filtered := Filter((p: CatalogProduct) => SearchMatches(p, term), filtered);
      }
      if status != All {
        filtered := Filter((p: CatalogProduct) => StatusKeeps(p, status, now), filtered);
      }
      StepwiseIsVisible(products, term, status, now);
      filteredProducts := filtered;
    }
  }

  /** An empty term with status 'all' lists every product. */
  lemma NoFilterListsAll(products: seq<CatalogProduct>, term: string, status: StatusFilter, now: int)
    ensures term == "" && status == All ==> Visible(products, term, status, now) == products
  {
    if term == "" && status == All {
      FilterAll((p: CatalogProduct) => Shown(p, term, status, now), products);
    }
  }

  /** The "Active" figure: products ending after `now`. */
  function ActiveCount(products: seq<CatalogProduct>, now: int): (r: nat)
    ensures r <= |products|
    ensures (exists i :: 0 <= i < |products| && products[i].time > now) ==> r >= 1
  {
    |Filter((p: CatalogProduct) => p.time > now, products)|
  }

  /** The "Expired" figure: products ending at or before `now`. */
  function ExpiredCount(products: seq<CatalogProduct>, now: int): (r: nat)
    ensures r <= |products|
    ensures (exists i :: 0 <= i < |products| && products[i].time <= now) ==> r >= 1
  {
    |Filter((p: CatalogProduct) => p.time <= now, products)|
  }

  /** For one `now`, every product is active or expired and not both. */
  lemma CountsPartition(products: seq<CatalogProduct>, now: int)
    ensures ActiveCount(products, now) + ExpiredCount(products, now) == |products|
  {
    FilterPartition((p: CatalogProduct) => p.time > now, (p: CatalogProduct) => p.time <= now, products);
  }

  /** The 'active' and 'expired' views list as many products as the two
      figures count when no term is typed, and the dashboard's notion of
      expired is the admin list's. */
  lemma StatusViewsMatchCounts(products: seq<CatalogProduct>, now: int)
    ensures |Visible(products, "", Active, now)| == ActiveCount(products, now)
    ensures |Visible(products, "", Expired, now)| == ExpiredCount(products, now)
    ensures forall p :: PastEndTime(p, now) <==> PastEnd(p, now)
  {
    FilterCongruent((p: CatalogProduct) => Shown(p, "", Active, now), (p: CatalogProduct) => p.time > now, products);
    FilterCongruent((p: CatalogProduct) => Shown(p, "", Expired, now), (p: CatalogProduct) => p.time <= now, products);
  }
}
