/** The admin dashboard: the statistics cards, the recent auctions and the
    create-auction and add-product forms. */
module AdminDashboard {
  import opened Wrappers
  import opened Seqs
  import opened Entities
  import AdminReports

  /** The statistics record. */
  datatype Stats = Stats(
    totalAuctions: nat,
    activeAuctions: nat,
    totalProducts: nat,
    unassignedProducts: nat,
    totalBids: nat,
    totalRevenue: int)

  /** `new Date(a.valid_until) > now`. */
  predicate IsLive(a: Auction, now: int)
  {
    a.validUntil > now
  }

  /** Every product of every auction, in auction order (`productsByAuction.flat()`). */
  function AllProducts(auctions: seq<Auction>, productsOf: string -> seq<Product>): seq<Product>
  {
    Flatten(Map((a: Auction) => productsOf(a.id), auctions))
  }

  /** Every bid on every product (`bidsNested.flat()`). */
  function AllBids(products: seq<Product>, bidsOf: string -> seq<Bid>): seq<Bid>
  {
    Flatten(Map((p: Product) => bidsOf(p.id), products))
  }

  /** `loadDashboard`'s statistics. A failed call counts as an empty list:
      `auctions` and `unassigned` are the two lists, `productsOf` and
      `bidsOf` the per-auction and per-product calls. */
  function ComputeStats(auctions: seq<Auction>, unassigned: seq<Product>,
                        productsOf: string -> seq<Product>, bidsOf: string -> seq<Bid>, now: int): (r: Stats)
    ensures r.totalAuctions == |auctions| && r.unassignedProducts == |unassigned|
    ensures r.activeAuctions <= r.totalAuctions
    ensures forall i :: 0 <= i < |auctions| && IsLive(auctions[i], now) ==> r.activeAuctions >= 1
    ensures r.totalProducts == Sum((a: Auction) => |productsOf(a.id)|, auctions)
    ensures r.totalBids == Sum((p: Product) => |bidsOf(p.id)|, AllProducts(auctions, productsOf))
  {
    var active := Filter((a: Auction) => IsLive(a, now), auctions);
    var flatProducts := AllProducts(auctions, productsOf);
    var flatBids := AllBids(flatProducts, bidsOf);
    FlattenLength(Map((a: Auction) => productsOf(a.id), auctions));
    SumMap((s: seq<Product>) => |s|, (a: Auction) => productsOf(a.id), (a: Auction) => |productsOf(a.id)|, auctions);
    FlattenLength(Map((p: Product) => bidsOf(p.id), flatProducts));
    SumMap((s: seq<Bid>) => |s|, (p: Product) => bidsOf(p.id), (p: Product) => |bidsOf(p.id)|, flatProducts);
    Stats(|auctions|, |active|, |flatProducts|, |unassigned|, |flatBids|, AdminReports.Revenue(flatBids))
  }

  /** The dashboard and the reports page agree: for the same answers from
      the back end, the dashboard's revenue is the reports' summary revenue,
      and its product and bid counts are the sums of the report rows' counts. */
  lemma StatsMatchReports(auctions: seq<Auction>, unassigned: seq<Product>,
                          productsOf: string -> seq<Product>, bidsOf: string -> seq<Bid>, now: int)
    ensures var s := ComputeStats(auctions, unassigned, productsOf, bidsOf, now);
            var rows := AdminReports.AuctionRows(auctions, productsOf, bidsOf);
      && s.totalRevenue == AdminReports.TotalRevenue(rows)
      && s.totalProducts == Sum((a: AdminReports.AuctionReport) => a.productCount, rows)
      && s.totalBids == Sum((a: AdminReports.AuctionReport) => a.bidCount, rows)
  {
    var byAuction := Map((a: Auction) => productsOf(a.id), auctions);
    var flatProducts := AllProducts(auctions, productsOf);
    var rows := AdminReports.AuctionRows(auctions, productsOf, bidsOf);
    var perProduct := (p: Product) => AdminReports.Revenue(bidsOf(p.id));
    var perCount := (p: Product) => |bidsOf(p.id)|;
    // revenue: by bid list, then by product, then by auction
    AdminReports.RevenueOfFlatten(Map((p: Product) => bidsOf(p.id), flatProducts));
    SumMap(AdminReports.Revenue, (p: Product) => bidsOf(p.id), perProduct, flatProducts);
    SumFlatten(perProduct, byAuction);
    SumMap((s: seq<Product>) => Sum(perProduct, s), (a: Auction) => productsOf(a.id),
           (a: Auction) => Sum(perProduct, productsOf(a.id)), auctions);
    AdminReports.TotalRevenueByProduct(auctions, productsOf, bidsOf);
    // bid count: by product, then by auction, then by row
    SumFlatten(perCount, byAuction);
    SumMap((s: seq<Product>) => Sum(perCount, s), (a: Auction) => productsOf(a.id),
           (a: Auction) => Sum(perCount, productsOf(a.id)), auctions);
    forall a: Auction
      ensures Sum(perCount, productsOf(a.id)) == AdminReports.AuctionRow(a, productsOf(a.id), bidsOf).bidCount
      ensures |productsOf(a.id)| == AdminReports.AuctionRow(a, productsOf(a.id), bidsOf).productCount
    {
    }
    SumMap((r: AdminReports.AuctionReport) => r.bidCount, (a: Auction) => AdminReports.AuctionRow(a, productsOf(a.id), bidsOf),
           (a: Auction) => Sum(perCount, productsOf(a.id)), auctions);
    SumMap((r: AdminReports.AuctionReport) => r.productCount, (a: Auction) => AdminReports.AuctionRow(a, productsOf(a.id), bidsOf),
           (a: Auction) => |productsOf(a.id)|, auctions);
  }

  /** The dashboard's "Active Auctions" card and the reports page's agree:
      both count the auctions whose end is after `now`. */
  lemma ActiveMatchesReports(auctions: seq<Auction>, unassigned: seq<Product>,
                             productsOf: string -> seq<Product>, bidsOf: string -> seq<Bid>, now: int)
    ensures ComputeStats(auctions, unassigned, productsOf, bidsOf, now).activeAuctions
            == AdminReports.ActiveCount(AdminReports.AuctionRows(auctions, productsOf, bidsOf), now)
  {
    forall a: Auction
      ensures AdminReports.AuctionRow(a, productsOf(a.id), bidsOf).validUntil == a.validUntil
    {
    }
    FilterMapLength((r: AdminReports.AuctionReport) => r.validUntil > now,
                    (a: Auction) => AdminReports.AuctionRow(a, productsOf(a.id), bidsOf),
                    (a: Auction) => IsLive(a, now), auctions);
  }

  /** `handleCreateAuction`'s guard: every field filled and a product selected. */
  predicate CanCreateAuction(form: AuctionForm, selected: seq<string>)
  {
    !(form.id == "" || form.name == "" || form.validUntil == "" || |selected| == 0)
  }

  /** `handleAddProduct`'s guard: every field filled. */
  predicate CanAddProduct(form: ProductForm)
  {
    !(form.id == "" || form.name == "" || form.description == "")
  }

  /** The emptied forms the page starts with and resets to pass neither guard. */
  lemma EmptyFormsRefused(selected: seq<string>)
    ensures !CanCreateAuction(EmptyAuctionForm, selected) && !CanAddProduct(EmptyProductForm)
  {
  }

  /** The page's state. */
  class DashboardPage {
    var stats: Stats
    var recentAuctions: seq<Auction>
    var productOptions: seq<Product>
    var loading: bool
    var showCreate: bool
    var auctionSaving: bool
    var auctionForm: AuctionForm
    var selectedProducts: seq<string>
    var showAddProduct: bool
    var productSaving: bool
    var productForm: ProductForm

    constructor ()
      ensures stats == Stats(0, 0, 0, 0, 0, 0) && recentAuctions == [] && productOptions == [] && loading
      ensures !showCreate && !auctionSaving && auctionForm == EmptyAuctionForm && selectedProducts == []
      ensures !showAddProduct && !productSaving && productForm == EmptyProductForm
    {
      stats := Stats(0, 0, 0, 0, 0, 0);
      recentAuctions, productOptions, loading := [], [], true;
      showCreate, auctionSaving, auctionForm, selectedProducts := false, false, EmptyAuctionForm, [];
      showAddProduct, productSaving, productForm := false, false, EmptyProductForm;
    }

    /** `loadDashboard` at time `now`. */
    method LoadDashboard(auctions: seq<Auction>, unassigned: seq<Product>,
                         productsOf: string -> seq<Product>, bidsOf: string -> seq<Bid>, now: int)
      modifies this`productOptions, this`stats, this`recentAuctions, this`loading
      ensures productOptions == unassigned
      ensures stats == ComputeStats(auctions, unassigned, productsOf, bidsOf, now)
      ensures recentAuctions == Take(auctions, 5)
      ensures !loading
      ensures unchanged(this`showCreate, this`auctionSaving, this`auctionForm, this`selectedProducts, this`showAddProduct, this`productSaving, this`productForm)
    {
      var computed := ComputeStats(auctions, unassigned, productsOf, bidsOf, now);
      var recent := Take(auctions, 5);
      productOptions, stats, recentAuctions, loading := unassigned, computed, recent, false;
    }

    /** `resetAuctionForm`. */
    method ResetAuctionForm()
      modifies this
      ensures auctionForm == EmptyAuctionForm && selectedProducts == []
      ensures stats == old(stats) && recentAuctions == old(recentAuctions) && productOptions == old(productOptions)
      ensures loading == old(loading) && showCreate == old(showCreate) && auctionSaving == old(auctionSaving)
      ensures showAddProduct == old(showAddProduct) && productSaving == old(productSaving) && productForm == old(productForm)
    {
      auctionForm := EmptyAuctionForm;
      selectedProducts := [];
    }

    /** `handleCreateAuction`: an incomplete form sends nothing and changes
        nothing. Otherwise the request (the form and the selected product ids)
        is returned; when the service accepts (`ok`) the modal closes and the
        form is reset, and the dashboard is then reloaded by `LoadDashboard`. */
    method HandleCreateAuction(ok: bool) returns (request: Option<(AuctionForm, seq<string>)>)
      modifies this
      ensures request.Some? <==> CanCreateAuction(old(auctionForm), old(selectedProducts))
      ensures request.Some? ==> request.value == (old(auctionForm), old(selectedProducts))
      ensures request.Some? && ok ==> !showCreate && auctionForm == EmptyAuctionForm && selectedProducts == []
      ensures !(request.Some? && ok) ==>
        showCreate == old(showCreate) && auctionForm == old(auctionForm) && selectedProducts == old(selectedProducts)
      ensures request.Some? ==> !auctionSaving
      ensures request.None? ==> auctionSaving == old(auctionSaving)
      ensures stats == old(stats) && recentAuctions == old(recentAuctions) && productOptions == old(productOptions)
      ensures loading == old(loading) && showAddProduct == old(showAddProduct)
      ensures productSaving == old(productSaving) && productForm == old(productForm)
    {
      if !CanCreateAuction(auctionForm, selectedProducts) {
        return None;
      }
      auctionSaving := true;
      request := Some((auctionForm, selectedProducts));
      if ok {
        showCreate := false;
        ResetAuctionForm();
      }
      auctionSaving := false;
    }

    /** `handleAddProduct`, in the same way for the add-product form. */
    method HandleAddProduct(ok: bool) returns (request: Option<ProductForm>)
      modifies this
      ensures request.Some? <==> CanAddProduct(old(productForm))
      ensures request.Some? ==> request.value == old(productForm)
      ensures request.Some? && ok ==> !showAddProduct && productForm == EmptyProductForm
      ensures !(request.Some? && ok) ==> showAddProduct == old(showAddProduct) && productForm == old(productForm)
      ensures request.Some? ==> !productSaving
      ensures request.None? ==> productSaving == old(productSaving)
      ensures stats == old(stats) && recentAuctions == old(recentAuctions) && productOptions == old(productOptions)
      ensures loading == old(loading) && showCreate == old(showCreate) && auctionSaving == old(auctionSaving)
      ensures auctionForm == old(auctionForm) && selectedProducts == old(selectedProducts)
    {
      if !CanAddProduct(productForm) {
        return None;
      }
      productSaving := true;
      request := Some(productForm);
      if ok {
        showAddProduct := false;
        productForm := EmptyProductForm;
      }
      productSaving := false;
    }
  }
}
