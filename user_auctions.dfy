/** The user's "Browse Auctions" page: the countdown map, the d/h/m label,
    the search filter, registration and the bid guard. */
module UserAuctions {
  import opened Wrappers
  import opened Text
  import opened Clock
  import opened Seqs
  import opened Entities

  /** `String(user?.id ?? user?.username ?? user?.id ?? '')`. */
  function MyId(user: Option<User>): (r: string)
    ensures user.Some? && user.value.id.Some? ==> r == user.value.id.value
    ensures user.Some? && user.value.id.None? && user.value.username.Some? ==> r == user.value.username.value
    ensures user.None? || (user.value.id.None? && user.value.username.None?) ==> r == ""
  {
    if user.None? then ""
    else if user.value.id.Some? then user.value.id.value
    else if user.value.username.Some? then user.value.username.value
    else ""
  }

  /** The ticker's own formula `Math.max(0, Math.floor((end - now) / 1000))`
      is the page's `getSecondsLeft`: never negative, and zero exactly when
      less than a second is left. */
  function TickerSeconds(end: int, now: int): (r: int)
    ensures r == SecondsLeft(end, now)
    ensures r >= 0 && (r == 0 <==> end - now < 1000)
  {
    Max(0, FloorDiv(end - now, 1000))
  }

  /** Some auction of the list has id `id`, and no later one has. */
  predicate LastWithId(auctions: seq<Auction>, i: int)
  {
    0 <= i < |auctions| && forall j :: i < j < |auctions| ==> auctions[j].id != auctions[i].id
  }

  /** The `reduce` that fills the countdown map, one auction at a time: every
      id of the list is a key, nothing else is, and when an id occurs twice
      the later auction's seconds win. */
  method CountdownMap(auctions: seq<Auction>, now: int) returns (m: map<string, int>)
    ensures forall k :: k in m <==> exists i :: 0 <= i < |auctions| && auctions[i].id == k
    ensures forall i :: LastWithId(auctions, i) ==> m[auctions[i].id] == SecondsLeft(auctions[i].validUntil, now)
    ensures forall k :: k in m ==> m[k] >= 0
  {
    m := map[];
    var n := 0;
    while n < |auctions|
      invariant 0 <= n <= |auctions|
      invariant forall k :: k in m <==> exists i :: 0 <= i < n && auctions[i].id == k
      invariant forall i :: 0 <= i < n && (forall j :: i < j < n ==> auctions[j].id != auctions[i].id) ==>
                  m[auctions[i].id] == SecondsLeft(auctions[i].validUntil, now)
      invariant forall k :: k in m ==> m[k] >= 0
    {
      var a := auctions[n];
      m := m[a.id := SecondsLeft(a.validUntil, now)];
      n := n + 1;
    }
  }

  /** An auction's registrations contain `myId`. */
  predicate ListsMe(a: Auction, myId: string)
  {
    a.registrations.Some? && myId in a.registrations.value
  }

  /** The initial registered set: the ids of the auctions whose registrations contain `myId`. */
  method InitRegistered(auctions: seq<Auction>, myId: string) returns (init: set<string>)
    ensures forall k :: k in init <==> exists i :: 0 <= i < |auctions| && auctions[i].id == k && ListsMe(auctions[i], myId)
  {
    init := {};
    for n := 0 to |auctions|
      invariant forall k :: k in init <==> exists i :: 0 <= i < n && auctions[i].id == k && ListsMe(auctions[i], myId)
    {
      if ListsMe(auctions[n], myId) {
        init := init + {auctions[n].id};
      }
    }
  }

  /** The card's "registered" flag: in the set, or listed in the auction itself. */
  predicate IsRegistered(registered: set<string>, a: Auction, myId: string)
  {
    a.id in registered || ListsMe(a, myId)
  }

  /** A duration in days, hours and minutes; the seconds are dropped. */
  datatype Dhm = Dhm(days: nat, hours: nat, minutes: nat)

  /** `Math.floor(sec / 86400)`, `Math.floor((sec % 86400) / 3600)`,
      `Math.floor((sec % 3600) / 60)`: the duration rounded down to a whole minute. */
  function SplitDhm(sec: nat): (r: Dhm)
    ensures r.hours < 24 && r.minutes < 60
    ensures r.days * 86400 + r.hours * 3600 + r.minutes * 60 <= sec < r.days * 86400 + r.hours * 3600 + r.minutes * 60 + 60
  {
    var d, r1 := sec / 86400, sec % 86400;
    var h, r2 := r1 / 3600, r1 % 3600;
    assert sec == (d * 24) * 3600 + r1;
    assert sec % 3600 == r2;
    Dhm(d, h, (sec % 3600) / 60)
  }

  /** There is only one such split: the label is determined by the whole minutes left. */
  lemma DhmUnique(sec: nat, d: nat, h: nat, m: nat)
    requires h < 24 && m < 60
    requires d * 86400 + h * 3600 + m * 60 <= sec < d * 86400 + h * 3600 + m * 60 + 60
    ensures SplitDhm(sec) == Dhm(d, h, m)
  {
    var r := SplitDhm(sec);
    assert sec / 86400 == d;
    assert (sec % 86400) / 3600 == h;
  }

  /** `formatTimeLeft`: "Ended", or the non-zero leading units of days, hours and minutes. */
  function FormatTimeLeft(sec: int): (r: string)
    ensures sec <= 0 <==> r == "Ended"
    ensures sec > 0 ==>
      var t := SplitDhm(sec);
      && (t.days != 0 ==> r == DecimalString(t.days) + "d " + DecimalString(t.hours) + "h " + DecimalString(t.minutes) + "m")
      && (t.days == 0 && t.hours != 0 ==> r == DecimalString(t.hours) + "h " + DecimalString(t.minutes) + "m")
      && (t.days == 0 && t.hours == 0 ==> r == DecimalString(t.minutes) + "m")
  {
    if sec <= 0 then "Ended"
    else
      var d := sec / 86400;
      var h := (sec % 86400) / 3600;
      var m := (sec % 3600) / 60;
      if d != 0 then
        var r := DecimalString(d) + "d " + DecimalString(h) + "h " + DecimalString(m) + "m";
        assert IsDigit(r[0]);
        r
      else if h != 0 then
        var r := DecimalString(h) + "h " + DecimalString(m) + "m";
        assert IsDigit(r[0]);
        r
      else
        var r := DecimalString(m) + "m";
        assert IsDigit(r[0]);
        r
  }

  /** The search: the lower-cased name or id contains the lower-cased term. */
  predicate MatchesSearch(a: Auction, term: string)
  {
    Includes(Lower(a.name), Lower(term)) || Includes(Lower(a.id), Lower(term))
  }

  /** `filteredAuctions`: the matching auctions, in list order. */
  function FilteredAuctions(auctions: seq<Auction>, term: string): (r: seq<Auction>)
    ensures IsSubseq(r, auctions)
    ensures forall i :: 0 <= i < |r| ==> MatchesSearch(r[i], term)
    ensures forall i :: 0 <= i < |auctions| && MatchesSearch(auctions[i], term) ==> auctions[i] in r
    ensures forall x :: multiset(r)[x] == if MatchesSearch(x, term) then multiset(auctions)[x] else 0
  {
    FilterCounts((a: Auction) => MatchesSearch(a, term), auctions);
    Filter((a: Auction) => MatchesSearch(a, term), auctions)
  }

  /** The case of the search term does not matter. */
  lemma SearchIgnoresCase(auctions: seq<Auction>, term: string)
    ensures FilteredAuctions(auctions, Lower(term)) == FilteredAuctions(auctions, term)
  {
    LowerIdempotent(term);
    FilterCongruent((a: Auction) => MatchesSearch(a, Lower(term)), (a: Auction) => MatchesSearch(a, term), auctions);
  }

  /** An empty search keeps every auction, in order. */
  lemma EmptySearchKeepsAll(auctions: seq<Auction>)
    ensures FilteredAuctions(auctions, "") == auctions
  {
    forall a | a in auctions
      ensures MatchesSearch(a, "")
    {
      IncludesEmpty(Lower(a.name));
    }
    FilterAll((a: Auction) => MatchesSearch(a, ""), auctions);
  }

  /** `handleRegisterForAuction`'s patch: the auctions with that id get
      `myId` appended to their registrations (an absent list counts as
      empty); every other auction is unchanged. */
  function PatchRegistrations(auctions: seq<Auction>, auctionId: string, myId: string): (r: seq<Auction>)
    ensures |r| == |auctions|
    ensures forall i :: 0 <= i < |auctions| && auctions[i].id != auctionId ==> r[i] == auctions[i]
    ensures forall i :: 0 <= i < |auctions| && auctions[i].id == auctionId ==>
      r[i] == auctions[i].(registrations := Some(auctions[i].registrations.GetOr([]) + [myId]))
  {
    Map((a: Auction) => if a.id == auctionId then a.(registrations := Some(a.registrations.GetOr([]) + [myId])) else a, auctions)
  }

  /** After the patch every auction with that id lists the user, and every
      auction that listed the user still does. */
  lemma PatchListsMe(auctions: seq<Auction>, auctionId: string, myId: string)
    ensures forall i :: 0 <= i < |auctions| && auctions[i].id == auctionId ==>
      ListsMe(PatchRegistrations(auctions, auctionId, myId)[i], myId)
    ensures forall i :: 0 <= i < |auctions| && ListsMe(auctions[i], myId) ==>
      ListsMe(PatchRegistrations(auctions, auctionId, myId)[i], myId)
  {
    var r := PatchRegistrations(auctions, auctionId, myId);
    forall i | 0 <= i < |auctions| && auctions[i].id == auctionId
      ensures ListsMe(r[i], myId)
    {
      var regs := auctions[i].registrations.GetOr([]) + [myId];
      assert regs[|regs| - 1] == myId;
    }
    forall i | 0 <= i < |auctions| && ListsMe(auctions[i], myId)
      ensures ListsMe(r[i], myId)
    {
      if auctions[i].id == auctionId {
        var old_regs := auctions[i].registrations.value;
        var k :| 0 <= k < |old_regs| && old_regs[k] == myId;
        assert (old_regs + [myId])[k] == myId;
      }
    }
  }

  /** The bid request `handlePlaceBid` sends. */
  datatype BidRequest = BidRequest(productName: string, bidAmount: Option<int>, userId: Option<string>)

  /** What submitting the bid modal does. */
  datatype BidOutcome =
    | Incomplete                     // "Please enter a valid bid amount"
    | TooLow(highest: int)           // "Bid must be higher than current highest bid ..."
    | Place(request: BidRequest)     // placeBid is called

  /** `productBids[id]?.highest_bid ?? 0`: a product without an entry, or
      whose entry has no highest bid, counts as 0. */
  function CurrentHighest(productBids: map<string, Option<int>>, productId: string): (r: int)
    ensures productId in productBids && productBids[productId].Some? ==> r == productBids[productId].value
    ensures productId !in productBids || productBids[productId].None? ==> r == 0
  {
    if productId in productBids then productBids[productId].GetOr(0) else 0
  }

  /** `handlePlaceBid`'s guards. `parsed` is the amount's `parseFloat`
      (None for NaN); NaN is not below the highest bid, so it is sent. */
  function DecideBid(selected: Option<Product>, bidText: string, parsed: Option<int>, user: Option<User>,
                     productBids: map<string, Option<int>>): (r: BidOutcome)
    ensures r == Incomplete <==> selected.None? || bidText == "" || user.None?
    ensures r.TooLow? <==> r != Incomplete && parsed.Some? && parsed.value <= CurrentHighest(productBids, selected.value.id)
    ensures r.TooLow? ==> r.highest == CurrentHighest(productBids, selected.value.id)
    ensures r.Place? ==> r.request == BidRequest(selected.value.name, parsed, user.value.username)
    ensures r.Place? && parsed.Some? ==> parsed.value > CurrentHighest(productBids, selected.value.id)
  {
    if selected.None? || bidText == "" || user.None? then Incomplete
    else
      var highest := CurrentHighest(productBids, selected.value.id);
      if parsed.Some? && parsed.value <= highest then TooLow(highest)
      else Place(BidRequest(selected.value.name, parsed, user.value.username))
  }

  /** The page's state. */
  class AuctionsPage {
    const myId: string
    var auctions: seq<Auction>
    var timeLeft: map<string, int>
    var registered: set<string>
    var selectedProduct: Option<Product>
    var bidAmount: string
    var showBidModal: bool

    constructor (user: Option<User>)
      ensures myId == MyId(user)
      ensures auctions == [] && timeLeft == map[] && registered == {}
      ensures selectedProduct.None? && bidAmount == "" && !showBidModal
    {
      myId := MyId(user);
      auctions, timeLeft, registered := [], map[], {};
      selectedProduct, bidAmount, showBidModal := None, "", false;
    }

    /** The initial load: on success the auctions, their countdowns and the
        registered set built from them; a failed load changes nothing. */
    method Load(data: Option<seq<Auction>>, now: int)
      modifies this
      ensures data.Some? ==> auctions == data.value
      ensures data.Some? ==> forall k :: k in timeLeft <==> exists i :: 0 <= i < |auctions| && auctions[i].id == k
      ensures data.Some? ==> forall i :: LastWithId(auctions, i) ==> timeLeft[auctions[i].id] == SecondsLeft(auctions[i].validUntil, now)
      ensures data.Some? ==> forall k :: k in registered <==>
        exists i :: 0 <= i < |auctions| && auctions[i].id == k && ListsMe(auctions[i], myId)
      ensures data.None? ==> auctions == old(auctions) && timeLeft == old(timeLeft) && registered == old(registered)
      ensures selectedProduct == old(selectedProduct) && bidAmount == old(bidAmount) && showBidModal == old(showBidModal)
    {
      if data.Some? {
        auctions := data.value;
        timeLeft := CountdownMap(data.value, now);
        registered := InitRegistered(data.value, myId);
      }
    }

    /** One tick of the ticker: recomputes every countdown; with no auctions
        there is no ticker. */
    method Tick(now: int)
      modifies this
      ensures |auctions| > 0 ==> forall k :: k in timeLeft <==> exists i :: 0 <= i < |auctions| && auctions[i].id == k
      ensures |auctions| > 0 ==> forall i :: LastWithId(auctions, i) ==> timeLeft[auctions[i].id] == SecondsLeft(auctions[i].validUntil, now)
      ensures |auctions| == 0 ==> timeLeft == old(timeLeft)
      ensures auctions == old(auctions) && registered == old(registered)
      ensures selectedProduct == old(selectedProduct) && bidAmount == old(bidAmount) && showBidModal == old(showBidModal)
    {
      if |auctions| > 0 {
        timeLeft := CountdownMap(auctions, now);
      }
    }

    /** `handleRegisterForAuction`; `ok` says whether the service accepted.
        On success the id joins the set and only the matching auctions are
        patched; on failure nothing changes. */
    method RegisterForAuction(auctionId: string, ok: bool)
      modifies this
      ensures ok ==> registered == old(registered) + {auctionId}
      ensures ok ==> auctions == PatchRegistrations(old(auctions), auctionId, myId)
      ensures ok ==> forall i :: 0 <= i < |auctions| && auctions[i].id == auctionId ==> IsRegistered(registered, auctions[i], myId)
      ensures !ok ==> registered == old(registered) && auctions == old(auctions)
      ensures timeLeft == old(timeLeft)
      ensures selectedProduct == old(selectedProduct) && bidAmount == old(bidAmount) && showBidModal == old(showBidModal)
    {
      if ok {
        registered := registered + {auctionId};
        auctions := PatchRegistrations(auctions, auctionId, myId);
      }
    }

    /** `openBidModal`. */
    method OpenBidModal(product: Product)
      modifies this
      ensures selectedProduct == Some(product) && showBidModal
      ensures auctions == old(auctions) && timeLeft == old(timeLeft) && registered == old(registered) && bidAmount == old(bidAmount)
    {
      selectedProduct := Some(product);
      showBidModal := true;
    }

    /** `handlePlaceBid`: decides on the modal's content; when the bid is
        placed and the service accepts (`ok`), the modal closes and is cleared.
        Anything else leaves the page as it was. */
    method PlaceBid(parsed: Option<int>, user: Option<User>, productBids: map<string, Option<int>>, ok: bool)
      returns (outcome: BidOutcome)
      modifies this
      ensures outcome == DecideBid(old(selectedProduct), old(bidAmount), parsed, user, productBids)
      ensures outcome.Place? && ok ==> !showBidModal && bidAmount == "" && selectedProduct.None?
      ensures !(outcome.Place? && ok) ==>
        showBidModal == old(showBidModal) && bidAmount == old(bidAmount) && selectedProduct == old(selectedProduct)
      ensures auctions == old(auctions) && timeLeft == old(timeLeft) && registered == old(registered)
    {
      outcome := DecideBid(selectedProduct, bidAmount, parsed, user, productBids);
      if outcome.Place? && ok {
        showBidModal := false;
        bidAmount := "";
        selectedProduct := None;
      }
    }
  }
}
