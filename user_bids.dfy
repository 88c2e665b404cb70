/** The user's "My Bids" page: the bid statistics, the status badge, which
    bids can be cancelled and the rollback guard. */
module UserBids {
  import opened Wrappers
  import opened Seqs
  import opened Entities

  /** A badge: its text and its style class. */
  datatype StatusStyle = StatusStyle(title: string, badgeClass: string)

  const SuccessStyle := StatusStyle("Active", "bg-green-100 text-green-800")
  const FailedStyle := StatusStyle("Failed", "bg-red-100 text-red-800")
  const RolledBackStyle := StatusStyle("Cancelled", "bg-amber-100 text-amber-800")

  /** `statusConfig[status] ?? statusConfig.failed`: the three known statuses
      have their own badge; anything else, a missing status included, is
      shown as failed. */
  function StatusConfig(status: Option<string>): (r: StatusStyle)
    ensures status == Some("success") ==> r == SuccessStyle
    ensures status == Some("rolledback") ==> r == RolledBackStyle
    ensures status != Some("success") && status != Some("rolledback") ==> r == FailedStyle
  {
    match status
    case Some(s) =>
      if s == "success" then SuccessStyle
      else if s == "failed" then FailedStyle
      else if s == "rolledback" then RolledBackStyle
      else FailedStyle
    case None => FailedStyle
  }

  /** The Cancel button is offered only for a successful bid. */
  predicate CanCancel(b: Bid)
  {
    b.status == Some("success")
  }

  /** A bid can be cancelled exactly when its badge says "Active". */
  lemma CancelMatchesBadge(b: Bid)
    ensures CanCancel(b) <==> StatusConfig(b.status).title == "Active"
  {
  }

  /** The three figures of the statistics cards. */
  datatype Stats = Stats(totalBidAmount: int, activeBids: nat, failedBids: int)

  /** The `useMemo` statistics: the amounts summed with a missing one as 0,
      the successful bids counted, and every other bid counted as failed. */
  function BidStats(bids: seq<Bid>): (r: Stats)
    ensures r.totalBidAmount == Sum(BidAmount, bids)
    ensures r.activeBids == |Filter(IsSuccessful, bids)|
    ensures r.activeBids + r.failedBids == |bids|
    ensures 0 <= r.failedBids <= |bids|
  {
    var active := |Filter(IsSuccessful, bids)|;
    Stats(Sum(BidAmount, bids), active, |bids| - active)
  }

  predicate NotSuccessful(b: Bid)
  {
    !IsSuccessful(b)
  }

  /** The failed figure counts exactly the bids whose status is not 'success'. */
  lemma FailedCountsTheRest(bids: seq<Bid>)
    ensures BidStats(bids).failedBids == |Filter(NotSuccessful, bids)|
  {
    FilterPartition(IsSuccessful, NotSuccessful, bids);
  }

  /** The total amount counts every bid whatever its status: it is the
      successful bids' amount plus the others', and with no negative amount
      no single bid exceeds it. */
  lemma TotalCoversEveryStatus(bids: seq<Bid>)
    ensures BidStats(bids).totalBidAmount
            == Sum(BidAmount, Filter(IsSuccessful, bids)) + Sum(BidAmount, Filter(NotSuccessful, bids))
    ensures (forall i :: 0 <= i < |bids| ==> BidAmount(bids[i]) >= 0) ==>
      forall i :: 0 <= i < |bids| ==> BidAmount(bids[i]) <= BidStats(bids).totalBidAmount
  {
    SumFilterSplit(BidAmount, IsSuccessful, NotSuccessful, bids);
    SumBoundsEach(BidAmount, bids);
  }

  /** The page's state. */
  class BidsPage {
    var bids: seq<Bid>
    var rollbackLoading: Option<string>

    constructor ()
      ensures bids == [] && rollbackLoading.None?
    {
      bids, rollbackLoading := [], None;
    }

    /** `loadUserBids`: a failed load keeps the list. */
    method LoadUserBids(data: Option<seq<Bid>>)
      modifies this
      ensures data.Some? ==> bids == data.value
      ensures data.None? ==> bids == old(bids)
      ensures rollbackLoading == old(rollbackLoading)
    {
      if data.Some? {
        bids := data.value;
      }
    }

    /** `handleRollbackBid`. Without a bid id or a username, or when the
        user does not confirm, nothing happens and nothing is sent. Otherwise
        the rollback request is returned; when the service accepts (`ok`) the
        bids are reloaded from `reloaded`. The busy marker is cleared at the end. */
    method HandleRollbackBid(bidId: Option<string>, username: Option<string>, confirmed: bool, ok: bool, reloaded: Option<seq<Bid>>)
      returns (request: Option<(string, string)>)
      modifies this
      ensures request.Some? <==> bidId.Some? && bidId.value != "" && username.Some? && username.value != "" && confirmed
      ensures request.Some? ==> request.value == (bidId.value, username.value)
      ensures request.None? ==> bids == old(bids) && rollbackLoading == old(rollbackLoading)
      ensures request.Some? ==> rollbackLoading.None?
      ensures request.Some? && ok && reloaded.Some? ==> bids == reloaded.value
      ensures request.Some? && !(ok && reloaded.Some?) ==> bids == old(bids)
    {
      if bidId.None? || bidId.value == "" || username.None? || username.value == "" {
        return None;
      }
      if !confirmed {
        return None;
      }
      rollbackLoading := bidId;
      request := Some((bidId.value, username.value));
      if ok {
        LoadUserBids(reloaded);
      }
      rollbackLoading := None;
    }
  }
}
