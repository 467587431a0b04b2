/**
 * Room pricing: the server's fixed catalogue, the dynamic surcharges (weekend check-in, peak
 * month, more than two guests), rounding to whole rupees, 18% tax, and the page's own
 * fallback when the pricing request fails. Arithmetic is on exact rationals.
 */
module Pricing {
  import opened Wrappers

  /** n is x rounded to the nearest integer, a half rounded up. */
  predicate RoundsTo(x: real, n: int)
  {
    x - 0.5 < n as real <= x + 0.5
  }

  /** `Math.round`: the nearest integer, a half rounded up. */
  function Round(x: real): (r: int)
    ensures RoundsTo(x, r)
  {
    (x + 0.5).Floor
  }

  /** The bound of `Round` determines its value. */
  lemma RoundUnique(x: real, n: int)
    requires RoundsTo(x, n)
    ensures Round(x) == n
  {
  }

  /** Adding a whole number before rounding adds it to the rounded value. */
  lemma RoundShift(n: int, y: real)
    ensures Round(n as real + y) == n + Round(y)
  {
    RoundUnique(n as real + y, n + Round(y));
  }

  lemma RoundWhole(n: int)
    ensures Round(n as real) == n
  {
    RoundUnique(n as real, n);
  }

  /** Check-in on a Friday or Saturday (`getDay()` is 5 or 6). */
  predicate IsWeekend(weekday: int)
  {
    weekday == 5 || weekday == 6
  }

  /** Check-in in December or January (`getMonth()` is 11 or 0). */
  predicate IsPeakMonth(month: int)
  {
    month == 11 || month == 0
  }

  function Factor(applies: bool, f: real): real
  {
    if applies then f else 1.0
  }

  /**
   * `adjustedPrice` after the surcharges, applied one after the other: the base rate times
   * 1.2, 1.3 and 1.1 for each rule that applies. With no rule applying it is the base rate,
   * and it never exceeds 1.716 times a non-negative base.
   */
  function AdjustedRate(base: real, weekday: int, month: int, guests: int): (r: real)
    ensures r == base * Factor(IsWeekend(weekday), 1.2) * Factor(IsPeakMonth(month), 1.3) * Factor(guests > 2, 1.1)
    ensures !IsWeekend(weekday) && !IsPeakMonth(month) && guests <= 2 ==> r == base
    ensures base >= 0.0 ==> base <= r <= base * 1.716
  {
    var adjusted := base;
    var adjusted := if IsWeekend(weekday) then adjusted * 1.2 else adjusted;
    var adjusted := if IsPeakMonth(month) then adjusted * 1.3 else adjusted;
    if guests > 2 then adjusted * 1.1 else adjusted
  }

  /** The figures a pricing answer carries; `currency` is absent from the page's fallback. */
  datatype RoomPricing = RoomPricing(
    basePrice: int,
    totalPrice: int,
    taxes: int,
    finalPrice: int,
    duration: int,
    currency: Option<string>)

  /**
   * `calculateDynamicPricing`: the total is the unrounded adjusted rate times the nights,
   * rounded; tax is 18% of that total, rounded; the final price is total plus tax exactly; the
   * reported base price is the adjusted rate rounded, not the catalogue rate.
   */
  function CalculateDynamicPricing(base: real, weekday: int, month: int, guests: int, duration: int): (q: RoomPricing)
    ensures var rate := AdjustedRate(base, weekday, month, guests);
      && q.finalPrice == q.totalPrice + q.taxes
      && RoundsTo(rate, q.basePrice)
      && RoundsTo(rate * duration as real, q.totalPrice)
      && RoundsTo(q.totalPrice as real * 0.18, q.taxes)
    ensures q.duration == duration && q.currency == Some("INR")
  {
    var adjusted := AdjustedRate(base, weekday, month, guests);
    var totalPrice := Round(adjusted * duration as real);
    var taxes := Round(totalPrice as real * 0.18);
    RoomPricing(Round(adjusted), totalPrice, taxes, totalPrice + taxes, duration, Some("INR"))
  }

  /** The server's fixed rate per room product; an unknown product is charged as a standard room. */
  function CatalogueRate(productId: string): (r: int)
    ensures r in {3500, 6000, 8000, 12000}
    ensures productId !in {"prod_standard_room", "prod_deluxe_room", "prod_suite_room", "prod_family_room"} ==> r == 3500
  {
    if productId == "prod_standard_room" then 3500
    else if productId == "prod_deluxe_room" then 6000
    else if productId == "prod_suite_room" then 12000
    else if productId == "prod_family_room" then 8000
    else 3500
  }

  /** `/api/get-room-pricing` on the server: the dynamic pricing of the catalogue rate. */
  function ServerRoomPricing(productId: string, weekday: int, month: int, guests: int, duration: int): (r: RoomPricing)
    ensures r.finalPrice == r.totalPrice + r.taxes
    ensures r.currency == Some("INR") && r.duration == duration
    ensures !IsWeekend(weekday) && !IsPeakMonth(month) && guests <= 2 ==>
      r.basePrice == CatalogueRate(productId) && r.totalPrice == CatalogueRate(productId) * duration
  {
    var rate := CatalogueRate(productId);
    RoundWhole(rate);
    RoundWhole(rate * duration);
    CalculateDynamicPricing(rate as real, weekday, month, guests, duration)
  }

  /** The combined surcharge on 500 rupees, in rupees: 500 × 1.2 × 1.3 × 1.1 at most. */
  function SurchargeOn500(weekday: int, month: int, guests: int): int
  {
    (if IsWeekend(weekday) then 12 else 10) * (if IsPeakMonth(month) then 13 else 10)
    * (if guests > 2 then 11 else 10) / 2
  }

  /** On a multiple of 500 rupees the surcharges leave a whole number of rupees. */
  lemma AdjustedRateOnMultipleOf500(k: int, weekday: int, month: int, guests: int)
    ensures AdjustedRate(500.0 * k as real, weekday, month, guests) == (k * SurchargeOn500(weekday, month, guests)) as real
  {
    var r := AdjustedRate(500.0 * k as real, weekday, month, guests);
    var m := SurchargeOn500(weekday, month, guests);
    if IsWeekend(weekday) {
      if IsPeakMonth(month) {
        if guests > 2 { assert m == 858; } else { assert m == 780; }
      } else {
        if guests > 2 { assert m == 660; } else { assert m == 600; }
      }
    } else {
      if IsPeakMonth(month) {
        if guests > 2 { assert m == 715; } else { assert m == 650; }
      } else {
        if guests > 2 { assert m == 550; } else { assert m == 500; }
      }
    }
  }

  /**
   * On a catalogue rate, a multiple of 500, the adjusted rate is a whole number of rupees, so
   * the reported base price times the nights is exactly the total price.
   */
  lemma ServerTotalIsRateTimesNights(productId: string, weekday: int, month: int, guests: int, duration: int)
    ensures var r := ServerRoomPricing(productId, weekday, month, guests, duration);
      r.totalPrice == r.basePrice * duration
  {
    var k := CatalogueMultipleOf500(productId);
    AdjustedRateOnMultipleOf500(k, weekday, month, guests);
    RoundedWhole(AdjustedRate(CatalogueRate(productId) as real, weekday, month, guests),
                 k * SurchargeOn500(weekday, month, guests), duration);
  }

  lemma CatalogueMultipleOf500(productId: string) returns (k: int)
    ensures CatalogueRate(productId) as real == 500.0 * k as real
  {
    var rate := CatalogueRate(productId);
    k := if rate == 3500 then 7 else if rate == 6000 then 12 else if rate == 8000 then 16 else 24;
  }

  lemma RoundedWhole(adjusted: real, whole: int, duration: int)
    requires adjusted == whole as real
    ensures Round(adjusted) == whole && Round(adjusted * duration as real) == whole * duration
  {
    RoundWhole(whole);
    assert adjusted * duration as real == (whole * duration) as real;
    RoundWhole(whole * duration);
  }

  /** The failure of a priced request: the HTTP status and the `error` text of the body. */
  datatype HttpError = HttpError(status: int, message: string)

  /**
   * `getRoomPricing` against the payment gateway: `prices` is the active price list of the
   * product, in minor units, None when the gateway call fails. An empty list or a failed call
   * is a 500; otherwise the first price in rupees is priced dynamically.
   */
  function GatewayRoomPricing(prices: Option<seq<int>>, weekday: int, month: int, guests: int, duration: int)
    : (r: Result<RoomPricing, HttpError>)
    ensures r.Failure? <==> prices.None? || |prices.value| == 0
    ensures r.Failure? ==> r.error == HttpError(500, "Failed to fetch pricing")
    ensures r.Success? ==> r.value.finalPrice == r.value.totalPrice + r.value.taxes
    ensures r.Success? ==>
      r.value == CalculateDynamicPricing(prices.value[0] as real / 100.0, weekday, month, guests, duration)
  {
    if prices.None? || |prices.value| == 0 then Failure(HttpError(500, "Failed to fetch pricing"))
    else Success(CalculateDynamicPricing(prices.value[0] as real / 100.0, weekday, month, guests, duration))
  }

  /** The page's fallback rate per room type; an unknown type is charged as a standard room. */
  function FallbackRate(roomType: string): (r: int)
    ensures r in {3500, 6000, 8000, 12000}
  {
    if roomType == "standard" then 3500
    else if roomType == "deluxe" then 6000
    else if roomType == "suite" then 12000
    else if roomType == "family" then 8000
    else 3500
  }

  /**
   * The fallback pricing of the booking page when the pricing request fails: rate times nights,
   * tax 18% of that rounded, and the final price `Math.round(total * 1.18)`, which is exactly
   * total plus tax because the total is whole.
   */
  function FallbackPricing(roomType: string, duration: int): (r: RoomPricing)
    ensures r.basePrice == FallbackRate(roomType) && r.totalPrice == r.basePrice * duration
    ensures r.finalPrice == r.totalPrice + r.taxes
    ensures RoundsTo(r.totalPrice as real * 0.18, r.taxes)
    ensures r.duration == duration && r.currency.None?
  {
    var basePrice := FallbackRate(roomType);
    var totalPrice := basePrice * duration;
    assert totalPrice as real * 1.18 == totalPrice as real + totalPrice as real * 0.18;
    RoundShift(totalPrice, totalPrice as real * 0.18);
    RoomPricing(basePrice, totalPrice, Round(totalPrice as real * 0.18), Round(totalPrice as real * 1.18), duration, None)
  }

  /** The product the booking page sends for each of its room types. */
  function ProductOf(roomType: string): string
  {
    "prod_" + roomType + "_room"
  }

  /**
   * Off-peak, on a weekday and for at most two guests, the server and the page's fallback quote
   * the same figures for every listed room type.
   */
  lemma ServerAgreesWithFallback(roomType: string, weekday: int, month: int, guests: int, duration: int)
    requires roomType in {"standard", "deluxe", "suite", "family"}
    requires !IsWeekend(weekday) && !IsPeakMonth(month) && guests <= 2
    ensures var s := ServerRoomPricing(ProductOf(roomType), weekday, month, guests, duration);
      var f := FallbackPricing(roomType, duration);
      s.basePrice == f.basePrice && s.totalPrice == f.totalPrice
      && s.taxes == f.taxes && s.finalPrice == f.finalPrice
  {
    assert CatalogueRate(ProductOf(roomType)) == FallbackRate(roomType) by {
      if roomType == "standard" {
        assert ProductOf(roomType) == "prod_standard_room";
      } else if roomType == "deluxe" {
        assert ProductOf(roomType) == "prod_deluxe_room";
      } else if roomType == "suite" {
        assert ProductOf(roomType) == "prod_suite_room";
      } else {
        assert ProductOf(roomType) == "prod_family_room";
      }
    }
  }
}
