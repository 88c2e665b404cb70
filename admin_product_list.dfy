/** The admin's product list: the search and status filter, the time-remaining
    label, deleting a product and the highest bid shown on each card. */
module AdminProductList {
  import opened Wrappers
  import opened Text
  import opened Seqs
  import opened Entities

  /** The status selector. */
  datatype StatusFilter = All | Active | Expired

  /** `new Date(product.time) <= new Date()`. */
  predicate PastEnd(p: CatalogProduct, now: int)
  {
    p.time <= now
  }

  /** The lower-cased name contains the lower-cased search. */
  predicate NameMatches(p: CatalogProduct, search: string)
  {
    Includes(Lower(p.name), Lower(search))
  }

  /** The callback of `filteredProducts`. */
  predicate Keep(p: CatalogProduct, search: string, mode: StatusFilter, now: int)
  {
    match mode
    case Active => NameMatches(p, search) && !PastEnd(p, now)
    case Expired => NameMatches(p, search) && PastEnd(p, now)
    case All => NameMatches(p, search)
  }

  /** `filteredProducts`: the products the search and the status selector keep, in list order. */
  function FilteredProducts(products: seq<CatalogProduct>, search: string, mode: StatusFilter, now: int): (r: seq<CatalogProduct>)
    ensures IsSubseq(r, products)
    ensures forall i :: 0 <= i < |r| ==> NameMatches(r[i], search)
    ensures mode == Active ==> forall i :: 0 <= i < |r| ==> !PastEnd(r[i], now)
    ensures mode == Expired ==> forall i :: 0 <= i < |r| ==> PastEnd(r[i], now)
    ensures forall i :: 0 <= i < |products| && Keep(products[i], search, mode, now) ==> products[i] in r
    ensures forall x :: multiset(r)[x] == if Keep(x, search, mode, now) then multiset(products)[x] else 0
  {
    FilterCounts((p: CatalogProduct) => Keep(p, search, mode, now), products);
    Filter((p: CatalogProduct) => Keep(p, search, mode, now), products)
  }

  /** "Active only" and "Expired only" split the "All products" list between
      them: together they hold each of its products exactly as often. */
  lemma ActiveExpiredPartition(products: seq<CatalogProduct>, search: string, now: int)
    ensures |FilteredProducts(products, search, Active, now)| + |FilteredProducts(products, search, Expired, now)|
            == |FilteredProducts(products, search, All, now)|
    ensures multiset(FilteredProducts(products, search, Active, now)) + multiset(FilteredProducts(products, search, Expired, now))
            == multiset(FilteredProducts(products, search, All, now))
  {
    var matching := (p: CatalogProduct) => NameMatches(p, search);
    var live := (p: CatalogProduct) => !PastEnd(p, now);
    var ended := (p: CatalogProduct) => PastEnd(p, now);
    var all := FilteredProducts(products, search, All, now);
    FilterCongruent((p: CatalogProduct) => Keep(p, search, All, now), matching, products);
    FilterCompose(matching, live, (p: CatalogProduct) => Keep(p, search, Active, now), products);
    FilterCompose(matching, ended, (p: CatalogProduct) => Keep(p, search, Expired, now), products);
    FilterPartition(live, ended, all);
  }

  /** Hours and whole minutes of a duration in milliseconds. */
  datatype Hm = Hm(hours: nat, minutes: nat)

  /** `Math.floor(diff / 3600000)` and `Math.floor((diff % 3600000) / 60000)`:
      the duration rounded down to a whole minute. */
  function SplitHm(diff: nat): (r: Hm)
    ensures r.minutes < 60
    ensures r.hours * 3600000 + r.minutes * 60000 <= diff < r.hours * 3600000 + r.minutes * 60000 + 60000
  {
    Hm(diff / 3600000, (diff % 3600000) / 60000)
  }

  /** There is only one such split. */
  lemma HmUnique(diff: nat, h: nat, m: nat)
    requires m < 60
    requires h * 3600000 + m * 60000 <= diff < h * 3600000 + m * 60000 + 60000
    ensures SplitHm(diff) == Hm(h, m)
  {
    assert diff / 3600000 == h;
  }

  /** `timeRemaining`: "Hh Mm" of the time left, which is clamped at zero. */
  function TimeRemaining(end: int, now: int): (r: string)
    ensures end <= now ==> r == "0h 0m"
    ensures end > now ==>
      var t := SplitHm(end - now);
      r == DecimalString(t.hours) + "h " + DecimalString(t.minutes) + "m"
  {
    var diff := if 0 >= end - now then 0 else end - now;
    var t := SplitHm(diff);
    DecimalString(t.hours) + "h " + DecimalString(t.minutes) + "m"
  }

  /** `prev.filter(p => p.id !== id)`: every product with that id goes, the others stay in order. */
  function WithoutProduct(products: seq<CatalogProduct>, id: string): (r: seq<CatalogProduct>)
    ensures IsSubseq(r, products)
    ensures forall i :: 0 <= i < |r| ==> r[i].id != id
    ensures forall i :: 0 <= i < |products| && products[i].id != id ==> products[i] in r
    ensures forall x :: multiset(r)[x] == if x.id != id then multiset(products)[x] else 0
  {
    FilterCounts((p: CatalogProduct) => p.id != id, products);
    Filter((p: CatalogProduct) => p.id != id, products)
  }

  /** Deleting an id that is not listed changes nothing. */
  lemma DeleteAbsent(products: seq<CatalogProduct>, id: string)
    requires forall i :: 0 <= i < |products| ==> products[i].id != id
    ensures WithoutProduct(products, id) == products
  {
    FilterAll((p: CatalogProduct) => p.id != id, products);
  }

  /** `highestBids[product.name] ?? '—'`: None stands for the dash. */
  function ShownHighest(highestBids: map<string, int>, name: string): (r: Option<int>)
    ensures r.Some? <==> name in highestBids
    ensures r.Some? ==> r.value == highestBids[name]
  {
    if name in highestBids then Some(highestBids[name]) else None
  }

  /** The page's state. */
  class ProductListPage {
    var products: seq<CatalogProduct>
    var highestBids: map<string, int>

    constructor ()
      ensures products == [] && highestBids == map[]
    {
      products, highestBids := [], map[];
    }

    /** The loop that fills the highest-bid record by product name. `fetch`
        is `getHighestBid` (None when the call fails, which stores 0); the
        answer depends only on the name, so the order in which the calls
        finish does not matter. Every listed name ends up with a number. */
    static method FillHighestBids(prods: seq<CatalogProduct>, fetch: string -> Option<int>) returns (bids: map<string, int>)
      ensures forall k :: k in bids <==> exists i :: 0 <= i < |prods| && prods[i].name == k
      ensures forall k :: k in bids ==> bids[k] == fetch(k).GetOr(0)
      ensures forall i :: 0 <= i < |prods| ==> ShownHighest(bids, prods[i].name).Some?
    {
      bids := map[];
      for n := 0 to |prods|
        invariant forall k :: k in bids <==> exists i :: 0 <= i < n && prods[i].name == k
        invariant forall k :: k in bids ==> bids[k] == fetch(k).GetOr(0)
      {
        var name := prods[n].name;
        match fetch(name)
        case Some(h) =>
          bids := bids[name := h];
        case None =>
          bids := bids[name := 0];
      }
    }

    /** `fetchProductsAndBids`: `overview` is the admin overview (None when
        the call fails) whose product list may be missing, which counts as
        empty. A failed call changes nothing. */
    method Load(overview: Option<Option<seq<CatalogProduct>>>, fetch: string -> Option<int>)
      modifies this
      ensures overview.Some? ==> products == overview.value.GetOr([])
      ensures overview.Some? ==> forall k :: k in highestBids <==> exists i :: 0 <= i < |products| && products[i].name == k
      ensures overview.Some? ==> forall k :: k in highestBids ==> highestBids[k] == fetch(k).GetOr(0)
      ensures overview.None? ==> products == old(products) && highestBids == old(highestBids)
    {
      if overview.Some? {
        var prods := overview.value.GetOr([]);
        products := prods;
        highestBids := FillHighestBids(prods, fetch);
      }
    }

    /** The delete button, once confirmed; `ok` says whether the service
        accepted. */
    method DeleteProduct(id: string, ok: bool)
      modifies this
      ensures ok ==> products == WithoutProduct(old(products), id)
      ensures !ok ==> products == old(products)
      ensures highestBids == old(highestBids)
    {
      if ok {
        products := WithoutProduct(products, id);
      }
    }
  }
}
