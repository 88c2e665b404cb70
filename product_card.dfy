/** The product card of the catalogue: its countdown state, the time label,
    the urgency bucket and what the card shows. */
module ProductCard {
  import opened Wrappers
  import opened Text
  import opened Clock

  datatype Urgency = Critical | Urgent | Moderate | Normal

  /** How pressing an urgency is: Critical is the highest. */
  function Pressure(u: Urgency): nat
  {
    match u
    case Critical => 3
    case Urgent => 2
    case Moderate => 1
    case Normal => 0
  }

  /** The card's state: `timeLeft`, `highestBid`, `isExpired`. */
  class CardState {
    var timeLeft: int
    var highestBid: int
    var isExpired: bool

    constructor ()
      ensures timeLeft == 0 && highestBid == 0 && !isExpired
    {
      timeLeft := 0;
      highestBid := 0;
      isExpired := false;
    }

    /** One tick of the countdown towards `endTime`. */
    method UpdateCountdown(endTime: int, now: int)
      modifies this
      ensures timeLeft == SecondsLeft(endTime, now) && timeLeft >= 0
      ensures isExpired <==> endTime - now < 1000
      ensures isExpired <==> timeLeft == 0
      ensures highestBid == old(highestBid)
    {
      var secondsLeft := FloorDiv(endTime - now, 1000);
      timeLeft := Max(secondsLeft, 0);
      isExpired := secondsLeft <= 0;
    }

    /** The initial fetch: when the highest bid arrives it is stored and the
        countdown refreshed; a failed fetch changes nothing. */
    method FetchInitialData(fetched: Option<int>, endTime: int, now: int)
      modifies this
      ensures fetched.Some? ==> highestBid == fetched.value
      ensures fetched.Some? ==> timeLeft == SecondsLeft(endTime, now) && (isExpired <==> endTime - now < 1000)
      ensures fetched.None? ==> highestBid == old(highestBid) && timeLeft == old(timeLeft) && isExpired == old(isExpired)
    {
      if fetched.Some? {
        highestBid := fetched.value;
        UpdateCountdown(endTime, now);
      }
    }
  }

  /** `formatTimeLeft`: "Expired", or the two leading units of the split. */
  function FormatTimeLeft(seconds: int): (r: string)
    ensures seconds <= 0 <==> r == "Expired"
    ensures seconds > 0 ==>
      var t := SplitHms(seconds);
      && (t.hours > 0 ==> r == DecimalString(t.hours) + "h " + DecimalString(t.minutes) + "m")
      && (t.hours == 0 && t.minutes > 0 ==> r == DecimalString(t.minutes) + "m " + DecimalString(t.seconds) + "s")
      && (t.hours == 0 && t.minutes == 0 ==> r == DecimalString(t.seconds) + "s")
  {
    if seconds <= 0 then "Expired"
    else
      var hours := seconds / 3600;
      var minutes := (seconds % 3600) / 60;
      var secs := seconds % 60;
      if hours > 0 then
        var r := DecimalString(hours) + "h " + DecimalString(minutes) + "m";
        assert IsDigit(r[0]);
        r
      else if minutes > 0 then
        var r := DecimalString(minutes) + "m " + DecimalString(secs) + "s";
        assert IsDigit(r[0]);
        r
      else
        var r := DecimalString(secs) + "s";
        assert IsDigit(r[0]);
        r
  }

  /** `getUrgencyLevel`. */
  function UrgencyLevel(seconds: int): (u: Urgency)
    ensures u == Critical <==> seconds <= 300
    ensures u == Urgent <==> 300 < seconds <= 3600
    ensures u == Moderate <==> 3600 < seconds <= 86400
    ensures u == Normal <==> seconds > 86400
  {
    if seconds <= 300 then Critical
    else if seconds <= 3600 then Urgent
    else if seconds <= 86400 then Moderate
    else Normal
  }

  /** Urgency never rises as more time remains. */
  lemma UrgencyMonotone(a: int, b: int)
    requires a <= b
    ensures Pressure(UrgencyLevel(b)) <= Pressure(UrgencyLevel(a))
  {
  }

  /** What a rendered card shows. */
  datatype CardView = CardView(
    liveBadge: bool,
    premiumBadge: bool,
    expiredBadge: bool,
    link: string,
    buttonLabel: string)

  /** The card for a product, or None when it renders nothing. */
  function View(isExpired: bool, highestBid: int, showStatus: bool, showExpired: bool, productId: string): (r: Option<CardView>)
    ensures r.None? <==> isExpired && !showExpired
    ensures r.Some? ==> (r.value.link == "#" <==> isExpired)
    ensures r.Some? && !isExpired ==> r.value.link == "/auction/" + productId
    ensures r.Some? ==> (r.value.premiumBadge <==> highestBid > 10000 && !isExpired)
    ensures r.Some? ==> (r.value.expiredBadge <==> isExpired)
    ensures r.Some? ==> !(r.value.expiredBadge && (r.value.premiumBadge || r.value.liveBadge))
    ensures r.Some? ==> (r.value.buttonLabel == "Bidding Closed" <==> r.value.link == "#")
    ensures r.Some? ==> (r.value.liveBadge <==> showStatus && !isExpired)
    ensures r.Some? && !isExpired ==> r.value.buttonLabel == "Place Your Bid"
  {
    if isExpired && !showExpired then None
    else
      var link := if isExpired then "#" else "/auction/" + productId;
      assert !isExpired ==> link[0] == '/';
      Some(CardView(
        showStatus && !isExpired,
        highestBid > 10000 && !isExpired,
        isExpired && showExpired,
        link,
        if isExpired then "Bidding Closed" else "Place Your Bid"))
  }

  /** Seen from the clock: the card disappears exactly when less than a second
      is left and expired cards are not asked for, and it links to the
      auction exactly while a second or more is left. */
  lemma ViewAtTime(endTime: int, now: int, highestBid: int, showStatus: bool, showExpired: bool, productId: string)
    ensures View(IsExpiredAt(endTime, now), highestBid, showStatus, showExpired, productId).None?
            <==> !showExpired && endTime - now < 1000
    ensures endTime - now >= 1000 ==>
            View(IsExpiredAt(endTime, now), highestBid, showStatus, showExpired, productId).value.link == "/auction/" + productId
  {
  }
}
