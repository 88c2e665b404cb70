/** The records the pages receive from the auction back end. Timestamps
    (`valid_until`, `time`) are whole milliseconds; amounts are whole
    rupees. Fields the front end declares optional, or reads with `?? 0`,
    are `Option`s. */
module Entities {
  import opened Wrappers

  /** An auction (`Auction` of the auction service). */
  datatype Auction = Auction(
    id: string,
    name: string,
    validUntil: int,
    productIds: Option<seq<string>>,
    registrations: Option<seq<string>>)

  /** A product as the admin and user auction pages see it (`Product` of the auction service). */
  datatype Product = Product(
    id: string,
    name: string,
    description: Option<string>,
    status: Option<string>,
    auctionId: Option<string>)

  /** A product of the public catalogue, with its end time (`Product` of the API service). */
  datatype CatalogProduct = CatalogProduct(
    id: string,
    name: string,
    description: string,
    auctionId: Option<string>,
    time: int)

  /** A bid; the pages read its amount with `?? 0`. */
  datatype Bid = Bid(
    bidId: Option<string>,
    productId: string,
    productName: string,
    auctionId: Option<string>,
    amount: Option<int>,
    status: Option<string>)

  /** A wallet transaction; `kind` is its `type` ('topup', 'bid', ...). */
  datatype Transaction = Transaction(
    id: string,
    username: string,
    kind: string,
    amount: Option<int>)

  /** The signed-in user as the auth context holds it; the pages read both
      fields defensively (`user?.id ?? user?.username`), so either may be missing. */
  datatype User = User(
    id: Option<string>,
    username: Option<string>)

  /** The create- and edit-auction form of the admin pages; `valid_until`
      is kept as the text the date field holds. */
  datatype AuctionForm = AuctionForm(id: string, name: string, validUntil: string)

  const EmptyAuctionForm := AuctionForm("", "", "")

  /** The add- and edit-product form of the admin pages. */
  datatype ProductForm = ProductForm(id: string, name: string, description: string)

  const EmptyProductForm := ProductForm("", "", "")

  /** `b.amount ?? 0`. */
  function BidAmount(b: Bid): int
  {
    b.amount.GetOr(0)
  }

  /** `t.amount ?? 0`. */
  function TxAmount(t: Transaction): int
  {
    t.amount.GetOr(0)
  }

  /** `t.type === 'topup'`. */
  predicate IsTopup(t: Transaction)
  {
    t.kind == "topup"
  }

  /** `t.type === 'bid'`. */
  predicate IsBidDebit(t: Transaction)
  {
    t.kind == "bid"
  }

  /** `b.status === 'success'`. */
  predicate IsSuccessful(b: Bid)
  {
    b.status == Some("success")
  }
}
