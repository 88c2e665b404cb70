/** The user's dashboard: the balance fallback, the auction counts, the
    amount spent, the number of auctions bid on and the loading sequence. */
module UserDashboard {
  import opened Wrappers
  import opened Seqs
  import opened Entities
  import UserWallet

  /** The fallback when the balance call fails: top-ups minus bids, a
      missing amount counting as 0. */
  function FallbackBalance(txs: seq<Transaction>): (r: int)
    ensures r == Sum(UserWallet.SignedAmount, txs)
  {
    UserWallet.SignedSplit(txs);
    Sum(TxAmount, Filter(IsTopup, txs)) - Sum(TxAmount, Filter(IsBidDebit, txs))
  }

  /** The fallback agrees with the wallet page's derived balance whenever
      every amount is present. */
  lemma FallbackMatchesDerived(txs: seq<Transaction>)
    ensures UserWallet.AllPresent(txs) ==> UserWallet.DerivedBalance(txs) == Some(FallbackBalance(txs))
  {
  }

  /** `totalSpent`: the sum of the 'bid' amounts, a missing amount counting as 0. */
  function TotalSpent(txs: seq<Transaction>): (r: int)
    ensures (forall i :: 0 <= i < |txs| ==> !IsBidDebit(txs[i])) ==> r == 0
  {
    FilterExtremes(IsBidDebit, txs);
    Sum(TxAmount, Filter(IsBidDebit, txs))
  }

  /** The dashboard's amount spent agrees with the wallet page's whenever
      every amount is present. */
  lemma TotalSpentMatchesWallet(txs: seq<Transaction>)
    ensures UserWallet.AllPresent(txs) ==> UserWallet.TotalSpent(txs) == Some(TotalSpent(txs))
  {
  }

  /** With no negative amount, the amount spent is at least 0 and at most the
      sum of all amounts. */
  lemma TotalSpentBounded(txs: seq<Transaction>)
    requires forall t :: t in txs ==> TxAmount(t) >= 0
    ensures 0 <= TotalSpent(txs) <= Sum(TxAmount, txs)
  {
    SumFilterBounded(TxAmount, IsBidDebit, txs);
  }

  /** `new Date(a.valid_until) > now`. */
  predicate IsActive(a: Auction, now: int)
  {
    a.validUntil > now
  }

  /** Ends within the next 24 hours: `0 < valid_until - now < 86400000`. */
  predicate EndsSoon(a: Auction, now: int)
  {
    var diff := a.validUntil - now;
    diff > 0 && diff < 86400000
  }

  function ActiveAuctions(auctions: seq<Auction>, now: int): (r: seq<Auction>)
    ensures IsSubseq(r, auctions)
    ensures forall i :: 0 <= i < |r| ==> r[i].validUntil > now
    ensures forall i :: 0 <= i < |auctions| && auctions[i].validUntil > now ==> auctions[i] in r
    ensures forall x :: multiset(r)[x] == if IsActive(x, now) then multiset(auctions)[x] else 0
  {
    FilterCounts((a: Auction) => IsActive(a, now), auctions);
    Filter((a: Auction) => IsActive(a, now), auctions)
  }

  function EndingSoon(auctions: seq<Auction>, now: int): (r: seq<Auction>)
    ensures IsSubseq(r, auctions)
    ensures forall i :: 0 <= i < |r| ==> now < r[i].validUntil < now + 86400000
    ensures forall i :: 0 <= i < |auctions| && now < auctions[i].validUntil < now + 86400000 ==> auctions[i] in r
    ensures forall x :: multiset(r)[x] == if EndsSoon(x, now) then multiset(auctions)[x] else 0
  {
    FilterCounts((a: Auction) => EndsSoon(a, now), auctions);
    Filter((a: Auction) => EndsSoon(a, now), auctions)
  }

  /** The auctions ending soon are the active ones that end within a day:
      a sub-list of the active auctions, so never more of them. */
  lemma EndingSoonWithinActive(auctions: seq<Auction>, now: int)
    ensures EndingSoon(auctions, now) == Filter((a: Auction) => EndsSoon(a, now), ActiveAuctions(auctions, now))
    ensures |EndingSoon(auctions, now)| <= |ActiveAuctions(auctions, now)|
  {
    FilterCompose((a: Auction) => IsActive(a, now), (a: Auction) => EndsSoon(a, now),
                  (a: Auction) => EndsSoon(a, now), auctions);
  }

  /** `new Set(userBids.map(b => b.auction_id))`: the distinct auction ids,
      a missing id counting once as `undefined`. */
  function AuctionIds(bids: seq<Bid>): (r: set<Option<string>>)
    ensures forall i :: 0 <= i < |bids| ==> bids[i].auctionId in r
    ensures forall x :: x in r ==> exists i :: 0 <= i < |bids| && bids[i].auctionId == x
  {
    set i | 0 <= i < |bids| :: bids[i].auctionId
  }

  /** There are never more distinct auctions than bids, and at least one
      when there is a bid. */
  lemma {:induction false} AuctionIdsBounded(bids: seq<Bid>)
    ensures |AuctionIds(bids)| <= |bids|
    ensures |bids| > 0 ==> |AuctionIds(bids)| >= 1
    decreases |bids|
  {
    if bids != [] {
      AuctionIdsBounded(bids[1..]);
      var rest := AuctionIds(bids[1..]);
      assert AuctionIds(bids) == {bids[0].auctionId} + rest by {
        forall x | x in AuctionIds(bids)
          ensures x in {bids[0].auctionId} + rest
        {
          var i :| 0 <= i < |bids| && bids[i].auctionId == x;
          if i > 0 {
            assert bids[1..][i - 1].auctionId == x;
          }
        }
        forall x | x in rest
          ensures x in AuctionIds(bids)
        {
          var j :| 0 <= j < |bids[1..]| && bids[1..][j].auctionId == x;
          assert bids[j + 1].auctionId == x;
        }
      }
      assert bids[0].auctionId in AuctionIds(bids);
    }
  }

  /** The "Registered Auctions" figure. */
  function RegisteredCount(bids: seq<Bid>): (r: nat)
    ensures r <= |bids|
    ensures |bids| > 0 ==> r >= 1
  {
    AuctionIdsBounded(bids);
    |AuctionIds(bids)|
  }

  /** Bids on one and the same auction count once. */
  lemma SameAuctionCountsOnce(bids: seq<Bid>, id: Option<string>)
    requires bids != [] && forall i :: 0 <= i < |bids| ==> bids[i].auctionId == id
    ensures RegisteredCount(bids) == 1
  {
    var ids := AuctionIds(bids);
    assert ids == {id} by {
      forall x | x in ids
        ensures x == id
      {
      }
      assert bids[0].auctionId == id;
    }
  }

  /** The dashboard's state. */
  class DashboardPage {
    var auctions: seq<Auction>
    var transactions: seq<Transaction>
    var walletBalance: Option<int>
    var userBids: seq<Bid>
    var loading: bool

    constructor ()
      ensures auctions == [] && transactions == [] && walletBalance.None? && userBids == [] && loading
    {
      auctions, transactions, walletBalance, userBids, loading := [], [], None, [], true;
    }

    /** `loadDashboardData`, run when the user has a username. Each call's
        answer is a parameter, None when it fails: the first five auctions
        (none on failure), the transactions (none on failure), the balance
        (whose `wallet_balance` may be missing; on failure the balance
        derived from the transactions just fetched) and the user's bids
        (none on failure). */
    method LoadDashboardData(username: Option<string>, auctionsData: Option<seq<Auction>>,
                             txData: Option<seq<Transaction>>, balance: Option<Option<int>>,
                             bidsData: Option<seq<Bid>>)
      modifies this
      ensures username.None? || username.value == "" ==>
        auctions == old(auctions) && transactions == old(transactions) && walletBalance == old(walletBalance)
        && userBids == old(userBids) && loading == old(loading)
      ensures username.Some? && username.value != "" ==>
        && auctions == Take(auctionsData.GetOr([]), 5)
        && transactions == txData.GetOr([])
        && walletBalance == (if balance.Some? then balance.value else Some(FallbackBalance(txData.GetOr([]))))
        && userBids == bidsData.GetOr([])
        && !loading
    {
      if username.None? || username.value == "" {
        return;
      }
      loading := true;
      if auctionsData.Some? {
        auctions := Take(auctionsData.value, 5);
      } else {
        auctions := [];
      }
      var transactionsData: seq<Transaction> := [];
      if txData.Some? {
        transactionsData := txData.value;
        transactions := transactionsData;
      } else {
        transactions := [];
      }
      if balance.Some? {
        walletBalance := balance.value;
      } else {
        walletBalance := Some(FallbackBalance(transactionsData));
      }
      if bidsData.Some? {
        userBids := bidsData.value;
      } else {
        userBids := [];
      }
      loading := false;
    }
  }
}
