/** The admin's reports: one row per auction with its product count, bid
    count and revenue, one row per product with its bid count and highest
    bid, the summary cards and the comma-separated export. */
module AdminReports {
  import opened Wrappers
  import opened Seqs
  import opened Text
  import opened Entities

  /** A row of the auction report. */
  datatype AuctionReport = AuctionReport(
    id: string,
    name: string,
    validUntil: int,
    productCount: nat,
    bidCount: nat,
    revenue: int)

  /** A row of the product report. */
  datatype ProductReport = ProductReport(
    id: string,
    name: string,
    description: Option<string>,
    status: Option<string>,
    bidCount: nat,
    highestBid: int)

  /** The revenue of a list of bids: the successful amounts, a missing one counting as 0. */
  function Revenue(bids: seq<Bid>): (r: int)
    ensures (forall i :: 0 <= i < |bids| ==> !IsSuccessful(bids[i])) ==> r == 0
    ensures (forall i :: 0 <= i < |bids| ==> IsSuccessful(bids[i])) ==> r == Sum(BidAmount, bids)
  {
    FilterExtremes(IsSuccessful, bids);
    Sum(BidAmount, Filter(IsSuccessful, bids))
  }

  /** With no negative amount, revenue lies between 0 and the sum of all bids. */
  lemma RevenueBounded(bids: seq<Bid>)
    requires forall b :: b in bids ==> BidAmount(b) >= 0
    ensures 0 <= Revenue(bids) <= Sum(BidAmount, bids)
  {
    SumFilterBounded(BidAmount, IsSuccessful, bids);
  }

  /** The revenue of the joined bid lists is the sum of their revenues. */
  lemma {:induction false} RevenueOfFlatten(ss: seq<seq<Bid>>)
    ensures Revenue(Flatten(ss)) == Sum(Revenue, ss)
    decreases |ss|
  {
    if ss != [] {
      FilterConcat(IsSuccessful, ss[0], Flatten(ss[1..]));
      SumConcat(BidAmount, Filter(IsSuccessful, ss[0]), Filter(IsSuccessful, Flatten(ss[1..])));
      RevenueOfFlatten(ss[1..]);
    }
  }

  /** The per-auction row. `products` are the auction's products (empty when
      the call fails) and `bidsOf` gives a product's bids (empty when the
      call fails); the row counts every bid on every product and adds up the
      revenue product by product. */
  function AuctionRow(a: Auction, products: seq<Product>, bidsOf: string -> seq<Bid>): (r: AuctionReport)
    ensures r.id == a.id && r.name == a.name && r.validUntil == a.validUntil
    ensures r.productCount == |products|
    ensures r.bidCount == Sum((p: Product) => |bidsOf(p.id)|, products)
    ensures r.revenue == Sum((p: Product) => Revenue(bidsOf(p.id)), products)
  {
    var nested := Map((p: Product) => bidsOf(p.id), products);
    var flatBids := Flatten(nested);
    FlattenLength(nested);
    SumMap((s: seq<Bid>) => |s|, (p: Product) => bidsOf(p.id), (p: Product) => |bidsOf(p.id)|, products);
    RevenueOfFlatten(nested);
    SumMap(Revenue, (p: Product) => bidsOf(p.id), (p: Product) => Revenue(bidsOf(p.id)), products);
    AuctionReport(a.id, a.name, a.validUntil, |products|, |flatBids|, Revenue(flatBids))
  }

  /** The per-product row: its bids counted and the highest amount, starting from 0. */
  function ProductRow(p: Product, bids: seq<Bid>): (r: ProductReport)
    ensures r.id == p.id && r.name == p.name && r.description == p.description && r.status == p.status
    ensures r.bidCount == |bids|
    ensures r.highestBid >= 0
    ensures forall i :: 0 <= i < |bids| ==> BidAmount(bids[i]) <= r.highestBid
    ensures r.highestBid == 0 || exists i :: 0 <= i < |bids| && r.highestBid == BidAmount(bids[i])
  {
    ProductReport(p.id, p.name, p.description, p.status, |bids|, FoldMax(0, BidAmount, bids))
  }

  /** A product in no auction: status 'unassigned', no bids. */
  function UnassignedRow(u: Product): (r: ProductReport)
    ensures r.id == u.id && r.name == u.name && r.description == u.description
    ensures r.status == Some("unassigned") && r.bidCount == 0 && r.highestBid == 0
  {
    ProductReport(u.id, u.name, u.description, Some("unassigned"), 0, 0)
  }

  /** The auction report: one row per auction, in order. */
  function AuctionRows(auctions: seq<Auction>, productsOf: string -> seq<Product>, bidsOf: string -> seq<Bid>): (r: seq<AuctionReport>)
    ensures |r| == |auctions|
    ensures forall i :: 0 <= i < |auctions| ==> r[i] == AuctionRow(auctions[i], productsOf(auctions[i].id), bidsOf)
  {
    Map((a: Auction) => AuctionRow(a, productsOf(a.id), bidsOf), auctions)
  }

  /** The product report: a row for every product of every auction, in
      auction order, then a row for every unassigned product. */
  function ProductRows(auctions: seq<Auction>, productsOf: string -> seq<Product>, bidsOf: string -> seq<Bid>,
                       unassigned: seq<Product>): (r: seq<ProductReport>)
    ensures var all := Flatten(Map((a: Auction) => productsOf(a.id), auctions));
      && |r| == |all| + |unassigned|
      && (forall i :: 0 <= i < |all| ==> r[i] == ProductRow(all[i], bidsOf(all[i].id)))
      && (forall i :: 0 <= i < |unassigned| ==> r[|all| + i] == UnassignedRow(unassigned[i]))
  {
    var allProds := Flatten(Map((a: Auction) => productsOf(a.id), auctions));
    var listed := Map((p: Product) => ProductRow(p, bidsOf(p.id)), allProds);
    var extra := Map(UnassignedRow, unassigned);
    var r := listed + extra;
    assert forall i :: 0 <= i < |unassigned| ==> r[|allProds| + i] == extra[i];
    r
  }

  /** The product report has a row for each product the auctions list plus each unassigned one. */
  lemma ProductRowCount(auctions: seq<Auction>, productsOf: string -> seq<Product>, bidsOf: string -> seq<Bid>,
                        unassigned: seq<Product>)
    ensures |ProductRows(auctions, productsOf, bidsOf, unassigned)|
            == Sum((a: Auction) => |productsOf(a.id)|, auctions) + |unassigned|
  {
    var nested := Map((a: Auction) => productsOf(a.id), auctions);
    FlattenLength(nested);
    SumMap((s: seq<Product>) => |s|, (a: Auction) => productsOf(a.id), (a: Auction) => |productsOf(a.id)|, auctions);
  }

  /** "Active Auctions": the rows whose end is after `now`. */
  function ActiveCount(rows: seq<AuctionReport>, now: int): (r: nat)
    ensures r <= |rows|
    ensures (exists i :: 0 <= i < |rows| && rows[i].validUntil > now) ==> r >= 1
    ensures (forall i :: 0 <= i < |rows| ==> rows[i].validUntil > now) ==> r == |rows|
    ensures (forall i :: 0 <= i < |rows| ==> rows[i].validUntil <= now) ==> r == 0
  {
    var live := (a: AuctionReport) => a.validUntil > now;
    FilterExtremes(live, rows);
    |Filter(live, rows)|
  }

  /** "Revenue": the rows' revenues added up. */
  function TotalRevenue(rows: seq<AuctionReport>): (r: int)
    ensures (forall i :: 0 <= i < |rows| ==> rows[i].revenue >= 0) ==>
      r >= 0 && forall i :: 0 <= i < |rows| ==> rows[i].revenue <= r
  {
    SumBoundsEach((a: AuctionReport) => a.revenue, rows);
    Sum((a: AuctionReport) => a.revenue, rows)
  }

  /** The summary revenue is the revenue of every product of every auction. */
  lemma TotalRevenueByProduct(auctions: seq<Auction>, productsOf: string -> seq<Product>, bidsOf: string -> seq<Bid>)
    ensures TotalRevenue(AuctionRows(auctions, productsOf, bidsOf))
            == Sum((a: Auction) => Sum((p: Product) => Revenue(bidsOf(p.id)), productsOf(a.id)), auctions)
  {
    forall a: Auction
      ensures Sum((p: Product) => Revenue(bidsOf(p.id)), productsOf(a.id)) == AuctionRow(a, productsOf(a.id), bidsOf).revenue
    {
    }
    SumMap((a: AuctionReport) => a.revenue, (a: Auction) => AuctionRow(a, productsOf(a.id), bidsOf),
           (a: Auction) => Sum((p: Product) => Revenue(bidsOf(p.id)), productsOf(a.id)), auctions);
  }

  /** The export's header and cells. A number is written in decimal, the end
      time as its millisecond count, a missing text as the empty string. */
  const AuctionKeys: seq<string> := ["id", "name", "valid_until", "productCount", "bidCount", "revenue"]
  const ProductKeys: seq<string> := ["id", "name", "description", "status", "bidCount", "highestBid"]

  function AuctionCells(r: AuctionReport): (c: seq<string>)
    ensures |c| == |AuctionKeys|
  {
    [r.id, r.name, IntString(r.validUntil), IntString(r.productCount), IntString(r.bidCount), IntString(r.revenue)]
  }

  function ProductCells(r: ProductReport): (c: seq<string>)
    ensures |c| == |ProductKeys|
  {
    [r.id, r.name, r.description.GetOr(""), r.status.GetOr(""), IntString(r.bidCount), IntString(r.highestBid)]
  }

  /** The position of the first column headed `key`. */
  function ColumnOf(keys: seq<string>, key: string): Option<nat>
  {
    if keys == [] then None
    else if keys[0] == key then Some(0)
    else
      var rest := ColumnOf(keys[1..], key);
      if rest.Some? then Some(rest.value + 1) else None
  }

  /** The column found is headed `key`, and none is found exactly when no key is `key`. */
  lemma {:induction false} ColumnOfMeans(keys: seq<string>, key: string)
    ensures ColumnOf(keys, key).Some? ==>
      ColumnOf(keys, key).value < |keys| && keys[ColumnOf(keys, key).value] == key
    ensures ColumnOf(keys, key).None? <==> key !in keys
    decreases |keys|
  {
    if keys != [] && keys[0] != key {
      ColumnOfMeans(keys[1..], key);
      assert key in keys[1..] <==> key in keys;
    }
  }

  /** A key found at `k` and at no earlier column heads column `k`. */
  lemma {:induction false} FirstColumn(keys: seq<string>, key: string, k: nat)
    requires k < |keys| && keys[k] == key && forall j :: 0 <= j < k ==> keys[j] != key
    ensures ColumnOf(keys, key) == Some(k)
    decreases k
  {
    if k > 0 {
      FirstColumn(keys[1..], key, k - 1);
    }
  }

  /** The cell under the column headed `key`, if there is one. */
  function CellFor(keys: seq<string>, cells: seq<string>, key: string): Option<string>
  {
    var k := ColumnOf(keys, key);
    if k.Some? && k.value < |cells| then Some(cells[k.value]) else None
  }

  /** The number under the column headed `key`, if its cell holds one. */
  function IntFor(keys: seq<string>, cells: seq<string>, key: string): Option<int>
  {
    var c := CellFor(keys, cells, key);
    if c.Some? && IsIntText(c.value) then Some(ReadInt(c.value)) else None
  }

  /** An auction row read back from the export's keys and one line's cells,
      each field looked up by the key that names it. */
  function ReadAuctionRow(keys: seq<string>, cells: seq<string>): Option<AuctionReport>
  {
    var id := CellFor(keys, cells, "id");
    var name := CellFor(keys, cells, "name");
    var validUntil := IntFor(keys, cells, "valid_until");
    var productCount := IntFor(keys, cells, "productCount");
    var bidCount := IntFor(keys, cells, "bidCount");
    var revenue := IntFor(keys, cells, "revenue");
    if id.Some? && name.Some? && validUntil.Some? && productCount.Some? && bidCount.Some? && revenue.Some?
       && productCount.value >= 0 && bidCount.value >= 0
    then Some(AuctionReport(id.value, name.value, validUntil.value, productCount.value, bidCount.value, revenue.value))
    else None
  }

  /** A product row read back the same way; an empty description or status
      reads back as the empty text. */
  function ReadProductRow(keys: seq<string>, cells: seq<string>): Option<ProductReport>
  {
    var id := CellFor(keys, cells, "id");
    var name := CellFor(keys, cells, "name");
    var description := CellFor(keys, cells, "description");
    var status := CellFor(keys, cells, "status");
    var bidCount := IntFor(keys, cells, "bidCount");
    var highestBid := IntFor(keys, cells, "highestBid");
    if id.Some? && name.Some? && description.Some? && status.Some? && bidCount.Some? && highestBid.Some?
       && bidCount.value >= 0
    then Some(ProductReport(id.value, name.value, description, status, bidCount.value, highestBid.value))
    else None
  }

  /** Where each field's key sits among the auction keys. */
  lemma AuctionColumns()
    ensures ColumnOf(AuctionKeys, "id") == Some(0)
    ensures ColumnOf(AuctionKeys, "name") == Some(1)
    ensures ColumnOf(AuctionKeys, "valid_until") == Some(2)
    ensures ColumnOf(AuctionKeys, "productCount") == Some(3)
    ensures ColumnOf(AuctionKeys, "bidCount") == Some(4)
    ensures ColumnOf(AuctionKeys, "revenue") == Some(5)
  {
    FirstColumn(AuctionKeys, "id", 0);
    FirstColumn(AuctionKeys, "name", 1);
    FirstColumn(AuctionKeys, "valid_until", 2);
    FirstColumn(AuctionKeys, "productCount", 3);
    FirstColumn(AuctionKeys, "bidCount", 4);
    FirstColumn(AuctionKeys, "revenue", 5);
  }

  /** Where each field's key sits among the product keys. */
  lemma ProductColumns()
    ensures ColumnOf(ProductKeys, "id") == Some(0)
    ensures ColumnOf(ProductKeys, "name") == Some(1)
    ensures ColumnOf(ProductKeys, "description") == Some(2)
    ensures ColumnOf(ProductKeys, "status") == Some(3)
    ensures ColumnOf(ProductKeys, "bidCount") == Some(4)
    ensures ColumnOf(ProductKeys, "highestBid") == Some(5)
  {
    FirstColumn(ProductKeys, "id", 0);
    FirstColumn(ProductKeys, "name", 1);
    FirstColumn(ProductKeys, "description", 2);
    FirstColumn(ProductKeys, "status", 3);
    FirstColumn(ProductKeys, "bidCount", 4);
    FirstColumn(ProductKeys, "highestBid", 5);
  }

  /** Each auction cell sits under the key that names its field: reading the
      cells back by key gives the row. */
  lemma AuctionCellsReadBack(r: AuctionReport)
    ensures ReadAuctionRow(AuctionKeys, AuctionCells(r)) == Some(r)
  {
    AuctionColumns();
    IntRoundTrip(r.validUntil);
    IntRoundTrip(r.productCount);
    IntRoundTrip(r.bidCount);
    IntRoundTrip(r.revenue);
  }

  /** Each product cell sits under the key that names its field: reading the
      cells back by key gives the row, a missing text written as empty. */
  lemma ProductCellsReadBack(r: ProductReport)
    ensures ReadProductRow(ProductKeys, ProductCells(r))
            == Some(r.(description := Some(r.description.GetOr("")), status := Some(r.status.GetOr(""))))
  {
    ProductColumns();
    IntRoundTrip(r.bidCount);
    IntRoundTrip(r.highestBid);
  }

  /** `handleExport`'s text: nothing for an empty report; otherwise the keys
      line, then each row's cells joined by commas, the lines joined by newlines. */
  function ExportCsv(keys: seq<string>, rows: seq<seq<string>>): (r: Option<string>)
    ensures r.None? <==> rows == []
  {
    if rows == [] then None
    else Some(Join([Join(keys, ',')] + Map((cells: seq<string>) => Join(cells, ','), rows), '\n'))
  }

  /** A decimal number holds neither a comma nor a newline. */
  lemma IntStringPlain(i: int)
    ensures ',' !in IntString(i) && '\n' !in IntString(i)
  {
    var d := DecimalString(if i < 0 then -i else i);
    assert AllDigits(d);
    assert ',' !in d && '\n' !in d;
  }

  /** No comma and no newline in any of the given strings. */
  predicate Plain(cells: seq<string>)
  {
    forall i :: 0 <= i < |cells| ==> ',' !in cells[i] && '\n' !in cells[i]
  }

  /** When no key and no cell holds a comma or a newline, the export has
      one line per row after the header, and each line splits back into
      exactly its cells. */
  lemma ExportLines(keys: seq<string>, rows: seq<seq<string>>)
    requires rows != [] && |keys| >= 1 && Plain(keys)
    requires forall j :: 0 <= j < |rows| ==> |rows[j]| >= 1 && Plain(rows[j])
    ensures var lines := Split(ExportCsv(keys, rows).value, '\n');
      && |lines| == |rows| + 1
      && Split(lines[0], ',') == keys
      && forall j :: 0 <= j < |rows| ==> Split(lines[j + 1], ',') == rows[j]
  {
    var body := Map((cells: seq<string>) => Join(cells, ','), rows);
    var parts := [Join(keys, ',')] + body;
    JoinExcludes(keys, ',', '\n');
    SplitJoin(keys, ',');
    forall j | 0 <= j < |rows|
      ensures '\n' !in body[j] && Split(body[j], ',') == rows[j]
    {
      JoinExcludes(rows[j], ',', '\n');
      SplitJoin(rows[j], ',');
    }
    forall k | 0 <= k < |parts|
      ensures '\n' !in parts[k]
    {
      if k > 0 {
        assert parts[k] == body[k - 1];
      }
    }
    SplitJoin(parts, '\n');
    assert forall j :: 0 <= j < |rows| ==> parts[j + 1] == body[j];
  }

  /** Every auction row is exported faithfully when its id and name hold no
      comma or newline. */
  lemma AuctionRowPlain(r: AuctionReport)
    requires ',' !in r.id && '\n' !in r.id && ',' !in r.name && '\n' !in r.name
    ensures Plain(AuctionCells(r))
  {
    IntStringPlain(r.validUntil);
    IntStringPlain(r.productCount);
    IntStringPlain(r.bidCount);
    IntStringPlain(r.revenue);
  }

  /** Which report is shown. */
  datatype ReportType = Auctions | Products

  /** The page's state. */
  class ReportsPage {
    var loading: bool
    var reportType: ReportType
    var auctionRows: seq<AuctionReport>
    var productRows: seq<ProductReport>

    constructor ()
      ensures loading && reportType == Auctions && auctionRows == [] && productRows == []
    {
      loading, reportType, auctionRows, productRows := true, Auctions, [], [];
    }

    /** `loadData`. Each call that fails counts as an empty list:
        `myAuctions` and `unassigned` are those lists, `productsOf` and
        `bidsOf` the per-auction and per-product calls. */
    method LoadData(myAuctions: seq<Auction>, unassigned: seq<Product>,
                    productsOf: string -> seq<Product>, bidsOf: string -> seq<Bid>)
      modifies this
      ensures auctionRows == AuctionRows(myAuctions, productsOf, bidsOf)
      ensures productRows == ProductRows(myAuctions, productsOf, bidsOf, unassigned)
      ensures !loading && reportType == old(reportType)
    {
      loading := true;
      auctionRows := AuctionRows(myAuctions, productsOf, bidsOf);
      productRows := ProductRows(myAuctions, productsOf, bidsOf, unassigned);
      loading := false;
    }

    /** The report selector. */
    method SelectReport(t: ReportType)
      modifies this
      ensures reportType == t
      ensures loading == old(loading) && auctionRows == old(auctionRows) && productRows == old(productRows)
    {
      reportType := t;
    }

    /** The text `handleExport` downloads for the report shown, None when it is empty. */
    method Export() returns (csv: Option<string>)
      ensures reportType == Auctions ==> csv == ExportCsv(AuctionKeys, Map(AuctionCells, auctionRows))
      ensures reportType == Products ==> csv == ExportCsv(ProductKeys, Map(ProductCells, productRows))
      ensures csv.None? <==> (if reportType == Auctions then auctionRows == [] else productRows == [])
    {
      if reportType == Auctions {
        csv := ExportCsv(AuctionKeys, Map(AuctionCells, auctionRows));
      } else {
        csv := ExportCsv(ProductKeys, Map(ProductCells, productRows));
      }
    }
  }
}
