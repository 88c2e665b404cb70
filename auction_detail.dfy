/** The auction detail page: its synchronised end time, the one-second
    countdown, the HH:MM:SS clock and the bid form's guards. */
module AuctionDetail {
  import opened Wrappers
  import opened Text
  import opened Clock
  import opened Entities

  /** What one server sync returns: the catalogue, the product's bids,
      its remaining seconds and its highest bid. */
  datatype Synced = Synced(
    products: seq<CatalogProduct>,
    bids: seq<Bid>,
    remainingSeconds: int,
    highestBid: int)

  /** What submitting the bid form does. */
  datatype BidDecision =
    | Ignore                                  // a field is empty: nothing happens
    | Reject(highest: int)                    // "Bid must be higher than current highest bid"
    | Send(productId: string, amount: Option<int>, userId: string)   // placeBid is called

  /** `find(p => p.id === id)`. */
  function FindProduct(products: seq<CatalogProduct>, id: string): (r: Option<CatalogProduct>)
    ensures r.Some? ==> r.value in products && r.value.id == id
    ensures r.Some? ==> exists i :: 0 <= i < |products| && products[i] == r.value && forall j :: 0 <= j < i ==> products[j].id != id
    ensures r.None? ==> forall i :: 0 <= i < |products| ==> products[i].id != id
    decreases |products|
  {
    if products == [] then None
    else if products[0].id == id then Some(products[0])
    else
      var r := FindProduct(products[1..], id);
      if r.Some? then
        var i :| 0 <= i < |products[1..]| && products[1..][i] == r.value && forall j :: 0 <= j < i ==> products[1..][j].id != id;
        assert products[i + 1] == r.value && forall j :: 0 <= j < i + 1 ==> products[j].id != id;
        r
      else r
  }

  /** `handlePlaceBid`'s guards. `bidText` is the form's text and `parsed`
      its `parseFloat` (None for NaN). A NaN amount is not below the highest
      bid, so it is sent; the number input keeps such text out of the form. */
  function DecideBid(productId: Option<string>, bidText: string, parsed: Option<int>, userId: string, highestBid: int): (r: BidDecision)
    ensures r == Ignore <==> productId.None? || productId == Some("") || bidText == "" || userId == ""
    ensures r.Reject? <==> r != Ignore && parsed.Some? && parsed.value <= highestBid
    ensures r.Reject? ==> r.highest == highestBid
    ensures r.Send? ==> Some(r.productId) == productId && r.amount == parsed && r.userId == userId
    ensures r.Send? && r.amount.Some? ==> r.amount.value > highestBid
  {
    if productId.None? || productId.value == "" || bidText == "" || userId == "" then Ignore
    else if parsed.Some? && parsed.value <= highestBid then Reject(highestBid)
    else Send(productId.value, parsed, userId)
  }

  /** The three clock fields: hours, minutes and seconds, each `padStart(2, '0')`. */
  function ClockFields(seconds: nat): (f: seq<string>)
    ensures |f| == 3
  {
    [PadStart2(DecimalString(seconds / 3600)),
     PadStart2(DecimalString((seconds % 3600) / 60)),
     PadStart2(DecimalString(seconds % 60))]
  }

  /** `formatTimeLeft`: "Auction Ended", or hours, minutes and seconds each
      padded to two digits and separated by colons. */
  function FormatClock(seconds: int): (r: string)
    ensures seconds <= 0 <==> r == "Auction Ended"
  {
    if seconds <= 0 then "Auction Ended"
    else
      var f := ClockFields(seconds);
      PadStart2Digits(DecimalString(seconds / 3600));
      var r := f[0] + ":" + f[1] + ":" + f[2];
      assert r[0] == f[0][0] && IsDigit(r[0]);
      r
  }

  /** Reads a clock "H:M:S" back into seconds. */
  function ParseClock(s: string): Option<int>
  {
    var parts := Split(s, ':');
    if |parts| == 3 && AllDigits(parts[0]) && AllDigits(parts[1]) && AllDigits(parts[2])
    then Some(DigitsValue(parts[0]) * 3600 + DigitsValue(parts[1]) * 60 + DigitsValue(parts[2]))
    else None
  }

  lemma ClockFieldsDigits(seconds: nat)
    ensures forall i :: 0 <= i < 3 ==> AllDigits(ClockFields(seconds)[i]) && |ClockFields(seconds)[i]| >= 2
    ensures DigitsValue(ClockFields(seconds)[0]) == seconds / 3600
    ensures DigitsValue(ClockFields(seconds)[1]) == (seconds % 3600) / 60
    ensures DigitsValue(ClockFields(seconds)[2]) == seconds % 60
  {
    var h, m, s := DecimalString(seconds / 3600), DecimalString((seconds % 3600) / 60), DecimalString(seconds % 60);
    PadStart2Digits(h);
    PadStart2Digits(m);
    PadStart2Digits(s);
    DecimalRoundTrip(seconds / 3600);
    DecimalRoundTrip((seconds % 3600) / 60);
    DecimalRoundTrip(seconds % 60);
  }

  lemma ClockIsJoin(seconds: int)
    requires seconds > 0
    ensures FormatClock(seconds) == Join(ClockFields(seconds), ':')
  {
    var f := ClockFields(seconds);
    assert Join(f[2..], ':') == f[2];
    assert Join(f[1..], ':') == f[1] + ":" + f[2];
  }

  /** The clock loses nothing: reading it back gives the seconds shown, for
      any number of hours (hours of 100 or more keep all their digits), and
      each field has at least two characters. */
  lemma {:induction false} ClockRoundTrip(seconds: int)
    requires seconds > 0
    ensures ParseClock(FormatClock(seconds)) == Some(seconds)
    ensures var parts := Split(FormatClock(seconds), ':');
            |parts| == 3 && |parts[0]| >= 2 && |parts[1]| >= 2 && |parts[2]| >= 2
  {
    var f := ClockFields(seconds);
    ClockFieldsDigits(seconds);
    forall i | 0 <= i < 3
      ensures ':' !in f[i]
    {
      assert AllDigits(f[i]);
    }
    ClockIsJoin(seconds);
    SplitJoin(f, ':');
    var t := SplitHms(seconds);
    assert t.hours * 3600 + t.minutes * 60 + t.seconds == seconds;
  }

  /** The page's state. */
  class DetailState {
    var product: Option<CatalogProduct>
    var bids: seq<Bid>
    var highestBid: int
    var newBid: string
    var endTime: Option<int>
    var timeLeft: int
    var isBidding: bool

    constructor ()
      ensures product.None? && bids == [] && highestBid == 0 && newBid == ""
      ensures endTime.None? && timeLeft == 0 && !isBidding
    {
      product, bids, highestBid, newBid := None, [], 0, "";
      endTime, timeLeft, isBidding := None, 0, false;
    }

    /** `fetchData` for product `productId` at time `now`: a successful sync
        stores the product, its bids and highest bid, and sets the end time
        `remainingSeconds` after `now`; a failed one changes nothing. */
    method FetchData(productId: string, now: int, synced: Option<Synced>)
      modifies this
      ensures synced.Some? ==>
        && product == FindProduct(synced.value.products, productId)
        && bids == synced.value.bids && highestBid == synced.value.highestBid
        && endTime == Some(now + synced.value.remainingSeconds * 1000)
      ensures synced.None? ==>
        product == old(product) && bids == old(bids) && highestBid == old(highestBid) && endTime == old(endTime)
      ensures newBid == old(newBid) && timeLeft == old(timeLeft) && isBidding == old(isBidding)
    {
      if synced.Some? {
        product := FindProduct(synced.value.products, productId);
        bids := synced.value.bids;
        highestBid := synced.value.highestBid;
        endTime := Some(now + synced.value.remainingSeconds * 1000);
      }
    }

    /** One tick of the countdown; without an end time nothing happens. */
    method Tick(now: int)
      modifies this
      ensures endTime.Some? ==> timeLeft == SecondsLeft(endTime.value, now)
      ensures endTime.Some? ==> (BidFormShown() <==> endTime.value - now >= 1000)
      ensures endTime.None? ==> timeLeft == old(timeLeft)
      ensures endTime == old(endTime) && product == old(product) && bids == old(bids)
      ensures highestBid == old(highestBid) && newBid == old(newBid) && isBidding == old(isBidding)
    {
      if endTime.Some? {
        var secondsRemaining := FloorDiv(endTime.value - now, 1000);
        timeLeft := Max(secondsRemaining, 0);
      }
    }

    /** `isExpired = timeLeft <= 0`; the bid form is shown while not expired. */
    predicate BidFormShown()
      reads this
    {
      !(timeLeft <= 0)
    }

    /** `handlePlaceBid`: decides on the form's content. When the bid is
        sent and the service takes it (`placed`) the form is cleared; the
        re-fetched bids and highest bid (`refreshed`, None when that fetch
        fails) are then stored. A bid that is not sent changes nothing. */
    method PlaceBid(productId: Option<string>, parsed: Option<int>, userId: string,
                    placed: bool, refreshed: Option<(seq<Bid>, int)>)
      returns (decision: BidDecision)
      modifies this
      ensures decision == DecideBid(productId, old(newBid), parsed, userId, old(highestBid))
      ensures decision.Send? && placed ==> newBid == ""
      ensures !(decision.Send? && placed) ==> newBid == old(newBid)
      ensures decision.Send? && placed && refreshed.Some? ==>
        bids == refreshed.value.0 && highestBid == refreshed.value.1
      ensures !(decision.Send? && placed && refreshed.Some?) ==>
        bids == old(bids) && highestBid == old(highestBid)
      ensures decision.Send? ==> !isBidding
      ensures !decision.Send? ==> isBidding == old(isBidding)
      ensures product == old(product) && endTime == old(endTime) && timeLeft == old(timeLeft)
    {
      decision := DecideBid(productId, newBid, parsed, userId, highestBid);
      if decision.Send? {
        isBidding := true;
        if placed {
          newBid := "";
          if refreshed.Some? {
            bids := refreshed.value.0;
            highestBid := refreshed.value.1;
          }
        }
        isBidding := false;
      }
    }
  }

  /** Right after a sync the countdown shows the server's remaining seconds
      (clamped at 0), and every whole second later it shows one less. */
  lemma CountdownAfterSync(now: int, remainingSeconds: int, elapsed: nat)
    ensures SecondsLeft(now + remainingSeconds * 1000, now + elapsed * 1000) == Max(remainingSeconds - elapsed, 0)
  {
    assert (now + remainingSeconds * 1000) - (now + elapsed * 1000) == (remainingSeconds - elapsed) * 1000;
  }
}
