/** The auction listing page: the sample auctions, the card each one is
    shown as, the remaining-time label, and the bid button. The clock is a
    parameter: `now` is the milliseconds value of `new Date()` at the moment
    the label is computed. */
module Countdown {
  import opened Strings

  const HourMs := 3600000
  const DayMs := 86400000

  /** `Math.floor(total / (1000 * 60 * 60))`: Dafny's division by a
      positive divisor rounds down, as `Math.floor` does, also for a
      negative total. */
  function Hours(total: int): int {
    total / HourMs
  }

  /** `Math.floor(hours / 24)`. */
  function Days(hours: int): int {
    hours / 24
  }

  /** The hour count is the floor: the largest whole number of hours not
      above the total. */
  lemma HoursFloor(total: int)
    ensures var h := Hours(total); h * HourMs <= total < (h + 1) * HourMs
  {
    DivBounds(total, HourMs);
  }

  /** The day count is the floor of the hours over 24. */
  lemma DaysFloor(hours: int)
    ensures var d := Days(hours); d * 24 <= hours < (d + 1) * 24
  {
    DivBounds(hours, 24);
  }

  /** A count and its unit, with an `s` only when the count exceeds one. */
  function Label(n: int, unit: string): string {
    IntToString(n) + " " + unit + (if n > 1 then "s" else "")
  }

  /** `getTimeRemaining(endTime)` at time `now`. */
  function TimeRemaining(endTime: int, now: int): string {
    var hours := Hours(endTime - now);
    var days := Days(hours);
    if days > 0 then Label(days, "day") else Label(hours, "hour")
  }

  lemma DivBounds(total: int, m: int)
    requires m > 0
    ensures (total / m) * m <= total < (total / m + 1) * m
  {
  }

  lemma MulMono(a: int, b: int, m: int)
    requires a <= b && m > 0
    ensures a * m <= b * m
  {
    assert b * m - a * m == (b - a) * m;
  }

  lemma MulOutsideUnit(x: int, m: int)
    requires m > 0
    ensures x >= 1 ==> x * m >= m
    ensures x <= -1 ==> x * m <= -m
  {
  }

  /** Rounding down is the one count whose multiples bracket the total. */
  lemma DivUnique(total: int, m: int, q: int)
    requires m > 0 && q * m <= total < (q + 1) * m
    ensures total / m == q
  {
    DivBounds(total, m);
    var d := total / m;
    MulOutsideUnit(q - d, m);
    assert (q - d) * m == q * m - d * m;
  }

  /** Flooring to hours and then to days is flooring to days. */
  lemma DaysOfHours(total: int)
    ensures Days(Hours(total)) == total / DayMs
  {
    var h := Hours(total);
    var d := Days(h);
    HoursFloor(total);
    DaysFloor(h);
    MulMono(d * 24, h, HourMs);
    MulMono(h + 1, (d + 1) * 24, HourMs);
    assert (d * 24) * HourMs == d * DayMs;
    assert ((d + 1) * 24) * HourMs == (d + 1) * DayMs;
    DivUnique(total, DayMs, d);
  }

  /** At least one whole day remains exactly when a full day's worth of
      milliseconds does. */
  lemma SomeDayLeft(total: int)
    ensures Days(Hours(total)) > 0 <==> total >= DayMs
  {
    DaysOfHours(total);
    DivBounds(total, DayMs);
    MulOutsideUnit(total / DayMs, DayMs);
  }

  /** The label counts whole days once a full day remains, and whole hours
      (zero or negative too, never clamped) otherwise; in both cases the
      count times its unit is the largest multiple not above the remaining
      time. */
  lemma TimeRemainingMeaning(endTime: int, now: int)
    ensures var total := endTime - now;
      (total >= DayMs ==>
        var d := total / DayMs;
        TimeRemaining(endTime, now) == Label(d, "day") && d >= 1 && d * DayMs <= total < (d + 1) * DayMs) &&
      (total < DayMs ==>
        var h := total / HourMs;
        TimeRemaining(endTime, now) == Label(h, "hour") && h < 24 && h * HourMs <= total < (h + 1) * HourMs)
  {
    var total := endTime - now;
    TimeRemainingLabel(endTime, now);
    if total >= DayMs {
      DivBounds(total, DayMs);
      MulOutsideUnit(total / DayMs, DayMs);
    } else {
      HoursFloor(total);
      var h := Hours(total);
      MulOutsideUnit(h - 23, HourMs);
      assert (h - 23) * HourMs == h * HourMs - 23 * HourMs;
    }
  }

  /** The label alone: days once a full day remains, hours otherwise. */
  lemma TimeRemainingLabel(endTime: int, now: int)
    ensures var total := endTime - now;
      (total >= DayMs ==> TimeRemaining(endTime, now) == Label(total / DayMs, "day")) &&
      (total < DayMs ==> TimeRemaining(endTime, now) == Label(total / HourMs, "hour"))
  {
    var total := endTime - now;
    SomeDayLeft(total);
    if total >= DayMs {
      DaysOfHours(total);
      var d := Days(Hours(total));
      assert d > 0 && d == total / DayMs;
      assert TimeRemaining(endTime, now) == Label(d, "day");
    }
  }

  lemma OneDigit(n: nat)
    requires n < 10
    ensures NatToString(n) == ["0123456789"[n]]
  {
  }

  /** A passed deadline shows a negative hour count, with no `s`. */
  lemma PastDeadline(now: int)
    ensures TimeRemaining(now - 1, now) == "-1 hour"
  {
    TimeRemainingMeaning(now - 1, now);
    assert -1 / HourMs == -1;
    OneDigit(1);
  }

  /** The last hour before the deadline shows `0 hour`. */
  lemma LastHour(now: int)
    ensures TimeRemaining(now, now) == "0 hour"
  {
    TimeRemainingMeaning(now, now);
    OneDigit(0);
  }

  /** Two hours left show `2 hours`. */
  lemma TwoHours(now: int)
    ensures TimeRemaining(now + 2 * HourMs, now) == "2 hours"
  {
    TimeRemainingMeaning(now + 2 * HourMs, now);
    assert (2 * HourMs) / HourMs == 2;
    OneDigit(2);
  }

  /** For both units the label ends in `s` exactly when the count is
      above one, and it always starts with the count and the unit. */
  lemma LabelPlural(n: int, unit: string)
    requires unit == "day" || unit == "hour"
    ensures var l := Label(n, unit);
      StartsWith(l, IntToString(n) + " " + unit) && (l[|l| - 1] == 's' <==> n > 1)
  {
    var head := IntToString(n) + " " + unit;
    assert head[|head| - 1] == unit[|unit| - 1];
    assert Label(n, unit)[..|head|] == head;
  }

  /** One auction of the listing. */
  datatype Auction = Auction(id: nat, title: string, description: string, currentBid: nat, endTime: int)

  /** The three sample auctions, ending one, two and three days after the
      moment the page is loaded. */
  function SampleAuctions(loadedAt: int): (r: seq<Auction>)
    ensures |r| == 3
    ensures forall k :: 0 <= k < 3 ==> r[k].id == k + 1 && r[k].endTime == loadedAt + (k + 1) * DayMs
  {
    [ Auction(1, "Vintage Watch", "A beautiful vintage timepiece from the 1960s", 250, loadedAt + 86400000),
      Auction(2, "Rare Collectible Coin", "Limited edition gold coin from 1899", 500, loadedAt + 172800000),
      Auction(3, "Antique Furniture Set", "Victorian era mahogany dining set", 1200, loadedAt + 259200000) ]
  }

  /** What a card shows: the title, the description, the price, the
      remaining time, and the auction its button bids on. */
  datatype Card = Card(title: string, description: string, price: string, timeRemaining: string, bidsOn: nat)

  /** `createAuctionElement` at time `now`: the price is a dollar sign
      followed by the digits of the current bid. */
  function CardOf(a: Auction, now: int): (c: Card)
    ensures c.bidsOn == a.id && c.title == a.title && c.description == a.description
    ensures c.timeRemaining == TimeRemaining(a.endTime, now)
    ensures |c.price| >= 2 && c.price[0] == '$'
    ensures var digits := c.price[1..];
      AllDigits(digits) && DigitsValue(digits) == a.currentBid
  {
    NatToStringRoundTrip(a.currentBid);
    assert ("$" + NatToString(a.currentBid))[1..] == NatToString(a.currentBid);
    Card(a.title, a.description, "$" + NatToString(a.currentBid), TimeRemaining(a.endTime, now), a.id)
  }

  /** The cards of `initAuctions`, one per auction in listing order. */
  function Cards(auctions: seq<Auction>, now: int): (r: seq<Card>)
    ensures |r| == |auctions|
    ensures forall k :: 0 <= k < |r| ==> r[k] == CardOf(auctions[k], now)
  {
    seq(|auctions|, k requires 0 <= k < |auctions| => CardOf(auctions[k], now))
  }

  /** The sample auctions end exactly one, two and three days after
      loading, so rendered in that same millisecond they show `1 day`,
      `2 days` and `3 days`, but rendered up to an hour later they show
      `23 hours`, `1 day` and `2 days`. */
  lemma SampleCountdownAtLoad(loadedAt: int, elapsed: nat, k: nat)
    requires elapsed <= HourMs && k < 3
    ensures elapsed == 0 ==> TimeRemaining(SampleAuctions(loadedAt)[k].endTime, loadedAt) == Label(k + 1, "day")
    ensures elapsed > 0 && k == 0 ==> TimeRemaining(SampleAuctions(loadedAt)[k].endTime, loadedAt + elapsed) == Label(23, "hour")
    ensures elapsed > 0 && k > 0 ==> TimeRemaining(SampleAuctions(loadedAt)[k].endTime, loadedAt + elapsed) == Label(k, "day")
  {
    var e := SampleAuctions(loadedAt)[k].endTime;
    if elapsed == 0 {
      SampleCountdown(e, loadedAt, k, 0);
    } else {
      SampleCountdown(e, loadedAt + elapsed, k, elapsed);
    }
  }

  /** The countdown of an auction that ends `k + 1` days minus `elapsed`
      milliseconds from now. */
  lemma SampleCountdown(e: int, now: int, k: nat, elapsed: nat)
    requires elapsed <= HourMs && k < 3 && e - now == (k + 1) * DayMs - elapsed
    ensures elapsed == 0 ==> TimeRemaining(e, now) == Label(k + 1, "day")
    ensures elapsed > 0 && k == 0 ==> TimeRemaining(e, now) == Label(23, "hour")
    ensures elapsed > 0 && k > 0 ==> TimeRemaining(e, now) == Label(k, "day")
  {
    var total := e - now;
    TimeRemainingLabel(e, now);
    if k == 0 {
      assert total == DayMs - elapsed;
      if elapsed == 0 { DivUnique(total, DayMs, 1); } else { DivUnique(total, HourMs, 23); }
    } else if k == 1 {
      assert total == 2 * DayMs - elapsed;
      if elapsed == 0 { DivUnique(total, DayMs, 2); } else { DivUnique(total, DayMs, 1); }
    } else {
      assert total == 3 * DayMs - elapsed;
      if elapsed == 0 { DivUnique(total, DayMs, 3); } else { DivUnique(total, DayMs, 2); }
    }
  }

  /** What the bid button does: an alert that bidding is unavailable and
      a console line naming the auction. */
  datatype BidNotice = BidNotice(alert: string, console: string)

  const BiddingUnavailable := "Bidding functionality is currently unavailable. Please check back later."

  /** `placeBid(auctionId)`: it is given only the id, so no auction and no
      bid is changed. */
  function PlaceBid(auctionId: int): (r: BidNotice)
    ensures r.alert == BiddingUnavailable
    ensures StartsWith(r.console, "Bid placed for auction ") && r.console[|"Bid placed for auction "|..] == IntToString(auctionId)
  {
    BidNotice(BiddingUnavailable, "Bid placed for auction " + IntToString(auctionId))
  }
}
