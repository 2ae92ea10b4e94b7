/** Rentals and outstation trips: terms agreed up front, their quote, and what is added when the trip ends. */
module RideModes {
  import opened JsMath
  import opened FareEngine

  datatype Tier = CAB | SEDAN | SUV

  datatype Package = Package(id: string, hours: nat, km: nat)

  const RENTAL_PACKAGES: seq<Package> := [
    Package("1h", 1, 10), Package("2h", 2, 20), Package("3h", 3, 30), Package("4h", 4, 40),
    Package("6h", 6, 60), Package("8h", 8, 80), Package("10h", 10, 100), Package("12h", 12, 120)]

  /** Package prices in order, and the rates past the package. */
  datatype RentalRate = RentalRate(prices: seq<real>, extraKm: real, extraMin: real)

  datatype OutstationRate = OutstationRate(oneWayPerKm: real, roundTripPerKm: real, allowancePerDay: real, oneWayMinKm: real, roundTripKmPerDay: real)

  datatype Terms =
    | Rental(packageId: string, hours: nat, km: real, price: real, extraKmRate: real, extraMinRate: real)
    | Outstation(roundTrip: bool, days: int, includedKm: real, perKm: real, allowancePerDay: real, routeKm: real)

  function FindPackage(id: string, i: nat): (j: Option<nat>)
    requires i <= |RENTAL_PACKAGES|
    ensures j.Some? ==> i <= j.value < |RENTAL_PACKAGES| && RENTAL_PACKAGES[j.value].id == id
    ensures j.None? ==> forall k | i <= k < |RENTAL_PACKAGES| :: RENTAL_PACKAGES[k].id != id
    decreases |RENTAL_PACKAGES| - i
  {
    if i == |RENTAL_PACKAGES| then None
    else if RENTAL_PACKAGES[i].id == id then Some(i)
    else FindPackage(id, i + 1)
  }

  function RentalTerms(rate: RentalRate, packageId: string): Option<Terms>
    requires |rate.prices| == |RENTAL_PACKAGES|
  {
    var i := FindPackage(packageId, 0);
    if i.None? then None
    else
      var p := RENTAL_PACKAGES[i.value];
      Some(Rental(p.id, p.hours, p.km as real, rate.prices[i.value], rate.extraKm, rate.extraMin))
  }

  /** The eight packages by their place in the price list; any other id has no terms. */
  lemma RentalTermsAre(rate: RentalRate, i: nat, id: string)
    requires |rate.prices| == |RENTAL_PACKAGES| && i < 8
    ensures var t := RentalTerms(rate, ["1h", "2h", "3h", "4h", "6h", "8h", "10h", "12h"][i]);
            && t.Some? && t.value.Rental? && t.value.packageId == ["1h", "2h", "3h", "4h", "6h", "8h", "10h", "12h"][i]
            && t.value.hours == [1, 2, 3, 4, 6, 8, 10, 12][i] && t.value.km == [10.0, 20.0, 30.0, 40.0, 60.0, 80.0, 100.0, 120.0][i]
            && t.value.price == rate.prices[i] && t.value.extraKmRate == rate.extraKm && t.value.extraMinRate == rate.extraMin
    ensures RentalTerms(rate, id).None? <==> id !in ["1h", "2h", "3h", "4h", "6h", "8h", "10h", "12h"]
  {
    var ids := ["1h", "2h", "3h", "4h", "6h", "8h", "10h", "12h"];
    forall k: nat | k < 8 ensures RENTAL_PACKAGES[k].id == ids[k] {}
    var j := FindPackage(ids[i], 0);
    assert RENTAL_PACKAGES[i].id == ids[i];
    OnePackageEach(i, j.value);
    if id in ids {
      var k :| 0 <= k < 8 && id == ids[k];
      assert RENTAL_PACKAGES[k].id == id;
    }
  }

  lemma OnePackageEach(i: nat, j: nat)
    requires i < 8 && j < 8 && RENTAL_PACKAGES[i].id == RENTAL_PACKAGES[j].id
    ensures i == j
  {
  }

  /** A longer package never costs less, never runs shorter and never includes fewer km. */
  lemma LongerPackageNotCheaper(rate: RentalRate, a: string, b: string)
    requires |rate.prices| == |RENTAL_PACKAGES| && forall i | 1 <= i < |rate.prices| :: rate.prices[i - 1] <= rate.prices[i]
    requires RentalTerms(rate, a).Some? && RentalTerms(rate, b).Some?
    ensures var x, y := RentalTerms(rate, a).value, RentalTerms(rate, b).value;
            (x.hours < y.hours ==> x.price <= y.price && x.km < y.km) && (x.hours == y.hours <==> x == y)
  {
    var i, j := FindPackage(a, 0).value, FindPackage(b, 0).value;
    PackagesGrow(i, j);
    PackagesGrow(j, i);
    PricesGrow(rate.prices, i, j);
  }

  lemma PackagesGrow(i: nat, j: nat)
    requires i < |RENTAL_PACKAGES| && j < |RENTAL_PACKAGES|
    ensures RENTAL_PACKAGES[i].km == 10 * RENTAL_PACKAGES[i].hours
    ensures i < j <==> RENTAL_PACKAGES[i].hours < RENTAL_PACKAGES[j].hours
  {
  }

  lemma {:induction false} PricesGrow(prices: seq<real>, i: nat, j: nat)
    requires i < |prices| && j < |prices| && forall k | 1 <= k < |prices| :: prices[k - 1] <= prices[k]
    ensures i <= j ==> prices[i] <= prices[j]
    decreases j
  {
    if i < j { PricesGrow(prices, i, j - 1); }
  }

  const IST_MS := 330 * 60_000
  const DAY_MS := 86_400_000

  function IstDay(t: int): int { (t + IST_MS) / DAY_MS }

  /** Calendar days from one time to another, both counted. */
  function IstDays(from: int, to: int): int { MaxI(1, IstDay(to) - IstDay(from) + 1) }

  /** One more day exactly when another midnight (IST) has passed. */
  lemma DaysAreMidnights(from: int, to: int, n: nat)
    requires from <= to
    ensures IstDays(from, to) == n + 1 <==> (IstDay(from) + n) * DAY_MS <= to + IST_MS < (IstDay(from) + n + 1) * DAY_MS
  {
    var x, d := to + IST_MS, IstDay(to);
    assert d * DAY_MS <= x < (d + 1) * DAY_MS;
    assert IstDay(from) <= d by {
      var f := IstDay(from);
      assert f * DAY_MS <= from + IST_MS <= x;
    }
  }

  function Tenths(n: int): real { n as real / 10.0 }

  function RoundTenth(x: real): real { Tenths(Round(x * 10.0)) }

  function OneWayTerms(r: OutstationRate, routeKm: real): (t: Terms)
    ensures t.Outstation? && !t.roundTrip
  {
    Outstation(false, 1, MaxR(r.oneWayMinKm, Ceil(routeKm) as real), r.oneWayPerKm, r.allowancePerDay, routeKm)
  }

  function RoundTripTerms(r: OutstationRate, routeKm: real, days: int): (t: Terms)
    ensures t.Outstation? && t.roundTrip
  {
    Outstation(true, days, MaxR(r.roundTripKmPerDay * days as real, Ceil(2.0 * routeKm) as real), r.roundTripPerKm, r.allowancePerDay, routeKm)
  }

  function OutstationTerms(r: OutstationRate, km: real, roundTrip: bool, leaveAt: int, returnAt: Option<int>): Terms {
    var routeKm := RoundTenth(km);
    if !roundTrip then OneWayTerms(r, routeKm)
    else RoundTripTerms(r, routeKm, IstDays(leaveAt, if returnAt.Some? then returnAt.value else leaveAt))
  }

  /** The nearest tenth. */
  lemma RoundTenthIsNear(x: real)
    ensures x - 0.05 < RoundTenth(x) <= x + 0.05 && RoundTenth(x) == Tenths(Round(x * 10.0))
  {
    var y := x * 10.0;
    assert y - 0.5 < (y + 0.5).Floor as real <= y + 0.5;
  }

  /**
   * What an outstation trip agrees to: the route to the nearest tenth, the rates of its kind, and its calendar days in
   * India (UTC + 5:30): one when it goes one way, has no return time or returns before it leaves.
   */
  lemma OutstationTermsAre(r: OutstationRate, km: real, roundTrip: bool, leaveAt: int, returnAt: Option<int>)
    ensures var t := OutstationTerms(r, km, roundTrip, leaveAt, returnAt);
            && t.Outstation? && t.roundTrip == roundTrip && km - 0.05 < t.routeKm <= km + 0.05
            && t.perKm == (if roundTrip then r.roundTripPerKm else r.oneWayPerKm) && t.allowancePerDay == r.allowancePerDay
            && (!roundTrip || returnAt.None? || returnAt.value < leaveAt ==> t.days == 1)
            && (roundTrip && returnAt.Some? && leaveAt <= returnAt.value ==>
                  t.days == (returnAt.value + 19_800_000) / 86_400_000 - (leaveAt + 19_800_000) / 86_400_000 + 1)
  {
    RoundTenthIsNear(km);
    if returnAt.Some? { OneDayAtLeast(leaveAt, returnAt.value); }
  }

  lemma OneDayAtLeast(from: int, to: int)
    ensures from <= to ==> IstDays(from, to) == (to + 19_800_000) / 86_400_000 - (from + 19_800_000) / 86_400_000 + 1
    ensures to <= from ==> IstDays(from, to) == 1
  {
    var x, y := from + IST_MS, to + IST_MS;
    DivMono(x, y);
    DivMono(y, x);
  }

  lemma DivMono(x: int, y: int)
    ensures x <= y ==> x / DAY_MS <= y / DAY_MS
  {
  }

  /** The km included cover the route (there and back), and one more day never includes less. */
  lemma IncludedCoversRoute(r: OutstationRate, km: real, roundTrip: bool, leaveAt: int, returnAt: int, later: int)
    requires r.roundTripKmPerDay >= 0.0 && returnAt <= later
    ensures var t, t' := OutstationTerms(r, km, roundTrip, leaveAt, Some(returnAt)), OutstationTerms(r, km, roundTrip, leaveAt, Some(later));
            && t.includedKm >= (if roundTrip then 2.0 * t.routeKm else t.routeKm)
            && t.includedKm <= t'.includedKm && t.days <= t'.days
  {
    MoreDays(leaveAt, returnAt, later);
    MoreDaysIncludeMore(r, RoundTenth(km), IstDays(leaveAt, returnAt), IstDays(leaveAt, later));
  }

  lemma MoreDays(leaveAt: int, returnAt: int, later: int)
    requires returnAt <= later
    ensures IstDays(leaveAt, returnAt) <= IstDays(leaveAt, later)
  {
    assert IstDay(returnAt) <= IstDay(later);
  }

  lemma MoreDaysIncludeMore(r: OutstationRate, routeKm: real, days: int, days': int)
    requires r.roundTripKmPerDay >= 0.0 && days <= days'
    ensures OneWayTerms(r, routeKm).includedKm >= routeKm
    ensures 2.0 * routeKm <= RoundTripTerms(r, routeKm, days).includedKm <= RoundTripTerms(r, routeKm, days').includedKm
  {
    MulMono(days as real, days' as real, r.roundTripKmPerDay);
  }

  /** Rounded down without the nudge, unlike the fare engine's lines. */
  function KmPrice(km: real, perKm: real): real { Floor(km * perKm) as real }

  function BaseOf(t: Terms): real {
    match t
    case Rental(_, _, _, price, _, _) => price
    case Outstation(_, _, includedKm, perKm, _, _) => KmPrice(includedKm, perKm)
  }

  function AllowanceOf(t: Terms): real {
    match t
    case Rental(_, _, _, _, _, _) => 0.0
    case Outstation(_, days, _, _, allowancePerDay, _) => allowancePerDay * days as real
  }

  function FlatQuote(base: real, allowance: real): Quote {
    Quote(base, 0.0, allowance, 0.0, base + allowance, 1.0, 0.0, 0.0, 0.0, 0.0, 0.0, base + allowance)
  }

  function ModeQuote(t: Terms): Quote { FlatQuote(BaseOf(t), AllowanceOf(t)) }

  /** The price agreed up front adds up, and a rental's is its package price. */
  lemma ModeQuoteAddsUp(t: Terms)
    ensures AddsUp(ModeQuote(t)) && ModeQuote(t).multiplier == 1.0 && ModeQuote(t).peakCharge == 0.0
    ensures t.Rental? ==> ModeQuote(t).total == t.price
  {
  }

  /** Where the price stands: a rental's or the km's in the base, the allowance of the days in the time line. */
  lemma ModeLinesAre(t: Terms)
    ensures var q := ModeQuote(t);
            && q.distanceCharge == 0.0 && q.minFareTopUp == 0.0 && q.waitingCharge == 0.0 && q.waitPerMin == 0.0
            && (t.Rental? ==> q.base == t.price && q.timeCharge == 0.0)
            && (t.Outstation? ==> q.timeCharge == t.allowancePerDay * t.days as real
                                  && t.includedKm * t.perKm - 1.0 < q.base <= t.includedKm * t.perKm)
  {
  }

  datatype Settlement = Settlement(extraKm: real, extraMin: real, extraKmCharge: real, extraTimeCharge: real)

  function ExtraKm(actualKm: Option<real>, allowedKm: real): real {
    if actualKm.None? then 0.0 else MaxR(0.0, RoundTenth(actualKm.value - allowedKm))
  }

  function ExtraMin(actualMin: real, hours: nat): real { MaxR(0.0, Ceil(actualMin - (hours * 60) as real) as real) }

  function Settle(t: Terms, actualKm: Option<real>, actualMin: real): Settlement {
    match t
    case Outstation(roundTrip, _, includedKm, perKm, _, _) =>
      if !roundTrip then Settlement(0.0, 0.0, 0.0, 0.0)
      else
        var extraKm := ExtraKm(actualKm, includedKm);
        Settlement(extraKm, 0.0, Charge(extraKm, perKm), Charge(0.0, 0.0))
    case Rental(_, hours, km, _, kmRate, minRate) =>
      var extraKm, extraMin := ExtraKm(actualKm, km), ExtraMin(actualMin, hours);
      Settlement(extraKm, extraMin, Charge(extraKm, kmRate), Charge(extraMin, minRate))
  }

  /** The fare with its settlement lines. */
  datatype Settled = Settled(fare: Quote, lines: Settlement, total: real)

  function WithSettlement(q: Quote, s: Settlement): Settled { Settled(q, s, q.total + s.extraKmCharge + s.extraTimeCharge) }

  predicate TermsOk(t: Terms) {
    match t
    case Rental(_, _, _, _, kmRate, minRate) => kmRate >= 0.0 && minRate >= 0.0
    case Outstation(_, _, _, perKm, _, _) => perKm >= 0.0
  }

  /** Less than 50 m past the package counts as inside it. */
  lemma ExtraKmIff(actualKm: real, allowedKm: real)
    ensures ExtraKm(Some(actualKm), allowedKm) == 0.0 <==> actualKm < allowedKm + 0.05
    ensures ExtraKm(Some(actualKm), allowedKm) >= 0.0
  {
    var x := (actualKm - allowedKm) * 10.0 + 0.5;
    assert x.Floor <= 0 <==> x < 1.0;
  }

  lemma ExtraMinIff(actualMin: real, hours: nat)
    ensures ExtraMin(actualMin, hours) == 0.0 <==> actualMin <= (hours * 60) as real
    ensures ExtraMin(actualMin, hours) >= 0.0
  {
    var x := actualMin - (hours * 60) as real;
    assert Ceil(x) <= 0 <==> x <= 0.0;
  }

  lemma ExtraKmMono(a: real, b: real, allowedKm: real)
    requires a <= b
    ensures ExtraKm(Some(a), allowedKm) <= ExtraKm(Some(b), allowedKm)
  {
    var x, y := ((a - allowedKm) * 10.0 + 0.5).Floor, ((b - allowedKm) * 10.0 + 0.5).Floor;
    assert x <= y;
  }

  lemma ExtraMinMono(a: real, b: real, hours: nat)
    requires a <= b
    ensures ExtraMin(a, hours) <= ExtraMin(b, hours)
  {
    assert Ceil(a - (hours * 60) as real) <= Ceil(b - (hours * 60) as real);
  }

  lemma NoCharge(rate: real)
    ensures Charge(0.0, rate) == 0.0
  {
    assert 0.0 * rate == 0.0;
    FloorOfWhole(0.0);
  }

  /** Inside what was agreed nothing is added to the fare; nothing ever comes off it. */
  lemma SettlementAddsNothingInside(t: Terms, q: Quote, actualKm: Option<real>, actualMin: real)
    requires TermsOk(t)
    ensures WithSettlement(q, Settle(t, actualKm, actualMin)).total >= q.total
    ensures t.Rental? && (actualKm.Some? ==> actualKm.value < t.km + 0.05) && actualMin <= (t.hours * 60) as real ==>
              WithSettlement(q, Settle(t, actualKm, actualMin)).total == q.total
    ensures t.Outstation? && (t.roundTrip && actualKm.Some? ==> actualKm.value < t.includedKm + 0.05) ==>
              WithSettlement(q, Settle(t, actualKm, actualMin)).total == q.total
  {
    NoCharge(0.0);
    match t
    case Rental(_, hours, km, _, kmRate, minRate) =>
      if actualKm.Some? { ExtraKmIff(actualKm.value, km); }
      ExtraMinIff(actualMin, hours);
      ChargeOk(ExtraKm(actualKm, km), kmRate);
      ChargeOk(ExtraMin(actualMin, hours), minRate);
      NoCharge(kmRate);
      NoCharge(minRate);
    case Outstation(_, _, includedKm, perKm, _, _) =>
      if actualKm.Some? { ExtraKmIff(actualKm.value, includedKm); }
      ChargeOk(ExtraKm(actualKm, includedKm), perKm);
      NoCharge(perKm);
  }

  /** More km or more minutes never settle for less. */
  lemma SettlementMonotone(t: Terms, q: Quote, km: real, km': real, minutes: real, minutes': real)
    requires TermsOk(t) && km <= km' && minutes <= minutes'
    ensures WithSettlement(q, Settle(t, Some(km), minutes)).total <= WithSettlement(q, Settle(t, Some(km'), minutes')).total
  {
    match t
    case Rental(_, hours, included, _, kmRate, minRate) =>
      ExtraKmIff(km, included);
      ExtraKmMono(km, km', included);
      ExtraMinIff(minutes, hours);
      ExtraMinMono(minutes, minutes', hours);
      ChargeMono(ExtraKm(Some(km), included), ExtraKm(Some(km'), included), kmRate, kmRate);
      ChargeMono(ExtraMin(minutes, hours), ExtraMin(minutes', hours), minRate, minRate);
    case Outstation(_, _, included, perKm, _, _) =>
      ExtraKmIff(km, included);
      ExtraKmMono(km, km', included);
      ChargeMono(ExtraKm(Some(km), included), ExtraKm(Some(km'), included), perKm, perKm);
  }

  lemma ExtraKmBounds(actualKm: real, allowedKm: real)
    ensures actualKm - allowedKm - 0.05 <= ExtraKm(Some(actualKm), allowedKm) <= MaxR(0.0, actualKm - allowedKm + 0.05)
  {
    var y := (actualKm - allowedKm) * 10.0;
    assert y - 0.5 <= (y + 0.5).Floor as real <= y + 0.5;
  }

  lemma ExtraMinBounds(actualMin: real, hours: nat)
    ensures var over := actualMin - (hours * 60) as real; over <= ExtraMin(actualMin, hours) <= MaxR(0.0, over + 1.0)
  {
  }

  /** A charge is what its units cost, rounded down: within a rupee of the cost of anything between. */
  lemma ChargeBetween(low: real, units: real, high: real, rate: real)
    requires low <= units <= high && rate >= 0.0
    ensures rate * low - 1.0 < Charge(units, rate) <= rate * high + EPS
  {
    MulMono(low, units, rate);
    MulMono(units, high, rate);
    assert units * rate + EPS - 1.0 < FloorRupee(units * rate) <= units * rate + EPS;
  }

  /** The package, and each km and minute past it at its rate: less than two rupees under, at most 50 m and a minute over. */
  predicate PaysPackage(total: real, price: real, kmRate: real, minRate: real, overKm: real, overMin: real) {
    && total > price + kmRate * (overKm - 0.05) + minRate * overMin - 2.0
    && total <= price + kmRate * MaxR(0.0, overKm + 0.05) + minRate * MaxR(0.0, overMin + 1.0) + 2.0 * EPS
  }

  /** A settled rental pays for its package and for each km and minute past it, to within rounding. */
  lemma RentalPaysForUse(t: Terms, km: real, minutes: real)
    requires TermsOk(t) && t.Rental?
    ensures PaysPackage(WithSettlement(ModeQuote(t), Settle(t, Some(km), minutes)).total, t.price, t.extraKmRate, t.extraMinRate, km - t.km, minutes - (t.hours * 60) as real)
  {
    var overKm, overMin := km - t.km, minutes - (t.hours * 60) as real;
    ExtraKmBounds(km, t.km);
    ExtraMinBounds(minutes, t.hours);
    ChargeBetween(overKm - 0.05, ExtraKm(Some(km), t.km), MaxR(0.0, overKm + 0.05), t.extraKmRate);
    ChargeBetween(overMin, ExtraMin(minutes, t.hours), MaxR(0.0, overMin + 1.0), t.extraMinRate);
  }

  /** A settled round trip pays every km driven, at least those included, and the allowance of each day. */
  lemma RoundTripPaysForUse(t: Terms, km: real, minutes: real)
    requires TermsOk(t) && t.Outstation? && t.roundTrip
    ensures var total, allowance := WithSettlement(ModeQuote(t), Settle(t, Some(km), minutes)).total, t.allowancePerDay * t.days as real;
            t.perKm * MaxR(t.includedKm, km - 0.05) + allowance - 2.0 < total <= t.perKm * MaxR(t.includedKm, km + 0.05) + allowance + EPS
  {
    var extra := ExtraKm(Some(km), t.includedKm);
    ExtraKmBounds(km, t.includedKm);
    ExtraKmIff(km, t.includedKm);
    var low, high := MaxR(0.0, km - t.includedKm - 0.05), MaxR(0.0, km - t.includedKm + 0.05);
    ChargeBetween(low, extra, high, t.perKm);
    NoCharge(0.0);
    assert t.perKm * MaxR(t.includedKm, km - 0.05) == t.includedKm * t.perKm + t.perKm * low;
    assert t.perKm * MaxR(t.includedKm, km + 0.05) == t.includedKm * t.perKm + t.perKm * high;
  }

  /** The agreed price pays `km` km, or `least` if that is more, and each day: less than a rupee under, at most 900 m over. */
  predicate Pays(t: Terms, perKm: real, least: real, km: real)
    requires t.Outstation?
  {
    var total, allowance := ModeQuote(t).total, t.allowancePerDay * t.days as real;
    perKm * MaxR(least, km) + allowance - 1.0 < total <= perKm * MaxR(least, km + 0.9) + allowance
  }

  lemma QuotePays(t: Terms, least: real, km: real, up: real)
    requires t.Outstation? && t.perKm >= 0.0 && t.includedKm == MaxR(least, up) && km <= up <= km + 0.9
    ensures Pays(t, t.perKm, least, km)
  {
    PriceBetween(MaxR(least, km), t.includedKm, MaxR(least, km + 0.9), t.perKm);
  }

  lemma PriceBetween(low: real, km: real, high: real, rate: real)
    requires low <= km <= high && rate >= 0.0
    ensures rate * low - 1.0 < KmPrice(km, rate) <= rate * high
  {
    MulMono(low, km, rate);
    MulMono(km, high, rate);
  }

  /** In tenths of a km, rounding up adds at most nine of them. */
  lemma CeilOfTenths(n: int)
    ensures Tenths(n) <= Ceil(Tenths(n)) as real <= Tenths(n) + 0.9
  {
    var c := Ceil(Tenths(n));
    assert (c - 1) as real < Tenths(n) <= c as real;
    assert 10 * (c - 1) < n <= 10 * c;
    assert 10 * c <= n + 9;
  }

  /** What the trip was booked for, as its terms say it. */
  predicate PaysBooked(t: Terms, r: OutstationRate, roundTrip: bool)
    requires t.Outstation?
  {
    if roundTrip then Pays(t, r.roundTripPerKm, r.roundTripKmPerDay * t.days as real, 2.0 * t.routeKm)
    else Pays(t, r.oneWayPerKm, r.oneWayMinKm, t.routeKm)
  }

  /** One way, for a route of any tenths of a km: the route, or the minimum km, at the one-way rate, and one day. */
  lemma OneWayPaysRoute(r: OutstationRate, tenths: int)
    requires r.oneWayPerKm >= 0.0
    ensures var t := OneWayTerms(r, Tenths(tenths));
            t.routeKm == Tenths(tenths) && t.days == 1 && t.allowancePerDay == r.allowancePerDay && PaysBooked(t, r, false)
  {
    CeilOfTenths(tenths);
    QuotePays(OneWayTerms(r, Tenths(tenths)), r.oneWayMinKm, Tenths(tenths), Ceil(Tenths(tenths)) as real);
  }

  lemma TwiceTenths(tenths: int)
    ensures 2.0 * Tenths(tenths) <= Ceil(2.0 * Tenths(tenths)) as real <= 2.0 * Tenths(tenths) + 0.9
  {
    CeilOfTenths(2 * tenths);
    assert Tenths(2 * tenths) == 2.0 * Tenths(tenths);
  }

  /** Round trip: the route both ways, or the km of its days, at the round-trip rate, and each day. */
  lemma RoundTripPaysRoute(r: OutstationRate, tenths: int, days: int)
    requires r.roundTripPerKm >= 0.0
    ensures var t := RoundTripTerms(r, Tenths(tenths), days);
            t.routeKm == Tenths(tenths) && t.days == days && t.allowancePerDay == r.allowancePerDay && PaysBooked(t, r, true)
  {
    TwiceTenths(tenths);
    RoundTripPays(RoundTripTerms(r, Tenths(tenths), days), r, r.roundTripKmPerDay * days as real, Ceil(2.0 * Tenths(tenths)) as real);
  }

  lemma RoundTripPays(t: Terms, r: OutstationRate, least: real, up: real)
    requires t.Outstation? && t.perKm == r.roundTripPerKm && t.perKm >= 0.0 && least == r.roundTripKmPerDay * t.days as real
    requires t.includedKm == MaxR(least, up) && 2.0 * t.routeKm <= up <= 2.0 * t.routeKm + 0.9
    ensures PaysBooked(t, r, true)
  {
    QuotePays(t, least, 2.0 * t.routeKm, up);
  }

  /** From the booking to the settled price: package `i` costs its own price, and each km and minute past it its own rate. */
  lemma BookedRentalPays(rate: RentalRate, i: nat, km: real, minutes: real)
    requires |rate.prices| == |RENTAL_PACKAGES| && i < 8 && rate.extraKm >= 0.0 && rate.extraMin >= 0.0
    ensures var t := RentalTerms(rate, ["1h", "2h", "3h", "4h", "6h", "8h", "10h", "12h"][i]).value;
            var hours := [1, 2, 3, 4, 6, 8, 10, 12][i];
            PaysPackage(WithSettlement(ModeQuote(t), Settle(t, Some(km), minutes)).total,
                        rate.prices[i], rate.extraKm, rate.extraMin, km - 10.0 * hours as real, minutes - 60.0 * hours as real)
  {
    RentalTermsAre(rate, i, "");
    var t := RentalTerms(rate, ["1h", "2h", "3h", "4h", "6h", "8h", "10h", "12h"][i]).value;
    RentalPaysForUse(t, km, minutes);
    TenKmAnHour(t, i);
  }

  lemma TenKmAnHour(t: Terms, i: nat)
    requires i < 8 && t.Rental? && t.hours == [1, 2, 3, 4, 6, 8, 10, 12][i] && t.km == [10.0, 20.0, 30.0, 40.0, 60.0, 80.0, 100.0, 120.0][i]
    ensures t.km == 10.0 * t.hours as real && (t.hours * 60) as real == 60.0 * t.hours as real
  {
  }

  lemma TermsByDirection(r: OutstationRate, km: real, leaveAt: int, returnAt: Option<int>) returns (tenths: int, days: int)
    ensures OutstationTerms(r, km, false, leaveAt, returnAt) == OneWayTerms(r, Tenths(tenths))
    ensures OutstationTerms(r, km, true, leaveAt, returnAt) == RoundTripTerms(r, Tenths(tenths), days)
  {
    tenths := Round(km * 10.0);
    days := IstDays(leaveAt, if returnAt.Some? then returnAt.value else leaveAt);
  }

  /** From the booking to the agreed price of an outstation trip, for any route, direction and times. */
  lemma BookedOutstationPays(r: OutstationRate, km: real, roundTrip: bool, leaveAt: int, returnAt: Option<int>)
    requires r.oneWayPerKm >= 0.0 && r.roundTripPerKm >= 0.0
    ensures var t := OutstationTerms(r, km, roundTrip, leaveAt, returnAt); t.Outstation? && PaysBooked(t, r, roundTrip)
  {
    var tenths, days := TermsByDirection(r, km, leaveAt, returnAt);
    if roundTrip { RoundTripPaysRoute(r, tenths, days); } else { OneWayPaysRoute(r, tenths); }
  }
}
