/** The itemised fare, the waiting line and the admin panel's preview of it. Exact reals stand for the numbers. */
module FareEngine {
  import opened JsMath

  const EPS: real := 0.000000001
  const MINUTE_MS: real := 60000.0

  datatype Rule = Rule(base: real, perKm: real, perMin: real, minFare: real, waitPerMin: Option<real>)

  datatype Waiting = Waiting(freeMin: real, maxCharge: real)

  datatype Quote = Quote(
    base: real, distanceCharge: real, timeCharge: real, minFareTopUp: real, subtotal: real, multiplier: real,
    peakCharge: real, waitingCharge: real, freeWaitMin: real, waitPerMin: real, waitMaxCharge: real, total: real)

  function FloorRupee(v: real): real { Floor(v + EPS) as real }

  predicate Whole(v: real) { v == v.Floor as real }

  function Capped(multiplier: real, maxMultiplier: real): real {
    MinR(MaxR(1.0, maxMultiplier), MaxR(1.0, multiplier))
  }

  /** The lines, given the floored charges, the multiplier and the floored surged ride. */
  function Lines(rule: Rule, distanceCharge: real, timeCharge: real, m: real, surged: real, waiting: Waiting, builtInWait: real): Quote {
    var raw := rule.base + distanceCharge + timeCharge;
    var minFareTopUp := MaxR(0.0, rule.minFare - surged);
    var subtotal := raw + minFareTopUp;
    var total := surged + minFareTopUp;
    Quote(rule.base, distanceCharge, timeCharge, minFareTopUp, subtotal, m, total - subtotal, 0.0, MaxR(0.0, waiting.freeMin),
          MaxR(0.0, Floor(if rule.waitPerMin.Some? then rule.waitPerMin.value else builtInWait) as real), MaxR(0.0, Floor(waiting.maxCharge) as real), total)
  }

  function Charge(rate: real, n: real): real { FloorRupee(rate * n) }

  /** What the multiplier applies to: base, floored distance and floored time. */
  function Ride(rule: Rule, km: real, minutes: real): real {
    rule.base + Charge(rule.perKm, km) + Charge(rule.perMin, minutes)
  }

  function QuoteFare(rule: Rule, km: real, minutes: real, multiplier: real, maxMultiplier: real, waiting: Waiting, builtInWait: real): Quote {
    var m := Capped(multiplier, maxMultiplier);
    Lines(rule, Charge(rule.perKm, km), Charge(rule.perMin, minutes), m, Charge(Ride(rule, km, minutes), m), waiting, builtInWait)
  }

  predicate AddsUp(q: Quote) {
    && q.base + q.distanceCharge + q.timeCharge + q.minFareTopUp == q.subtotal
    && q.subtotal + q.peakCharge + q.waitingCharge == q.total
  }

  lemma FloorOfWhole(v: real)
    requires Whole(v)
    ensures FloorRupee(v) == v
  {
    assert (v + EPS).Floor == v.Floor;
  }

  lemma FloorMono(v: real, w: real)
    requires v <= w
    ensures FloorRupee(v) <= FloorRupee(w)
  {
    var a, b := (v + EPS).Floor, (w + EPS).Floor;
    assert a <= b;
  }

  lemma FloorIsWhole(v: real)
    ensures Whole(FloorRupee(v))
  {
    var n := Floor(v + EPS);
    assert (n as real).Floor == n;
  }

  lemma WholeSum(v: real, w: real)
    requires Whole(v) && Whole(w)
    ensures Whole(v + w) && Whole(v - w)
  {
    var a, b := v.Floor, w.Floor;
    assert v + w == (a + b) as real && v - w == (a - b) as real;
    assert ((a + b) as real).Floor == a + b && ((a - b) as real).Floor == a - b;
  }

  lemma LinesAddUp(rule: Rule, d: real, t: real, m: real, surged: real, waiting: Waiting, wait: real)
    ensures var q := Lines(rule, d, t, m, surged, waiting, wait); AddsUp(q) && q.total == MaxR(rule.minFare, surged)
  {
  }

  /** For every input the lines add up, and the total is the surged ride or the minimum fare, whichever is more. */
  lemma QuoteAddsUp(rule: Rule, km: real, minutes: real, multiplier: real, maxMultiplier: real, waiting: Waiting, wait: real)
    ensures var q := QuoteFare(rule, km, minutes, multiplier, maxMultiplier, waiting, wait);
            AddsUp(q) && q.total == MaxR(rule.minFare, Charge(Ride(rule, km, minutes), q.multiplier))
    ensures 1.0 <= Capped(multiplier, maxMultiplier)
  {
    var m := Capped(multiplier, maxMultiplier);
    LinesAddUp(rule, Charge(rule.perKm, km), Charge(rule.perMin, minutes), m, Charge(Ride(rule, km, minutes), m), waiting, wait);
  }

  /** `v` rounded down to whole rupees, never below zero. */
  predicate WholePart(v: real, line: real) {
    Whole(line) && line >= 0.0 && (v >= 0.0 ==> v - 1.0 < line <= v) && (v < 0.0 ==> line == 0.0)
  }

  lemma FlooredIsWholePart(v: real)
    ensures WholePart(v, MaxR(0.0, Floor(v) as real))
  {
    assert (v.Floor as real).Floor == v.Floor;
    assert (0.0 as real).Floor == 0;
  }

  lemma FloorIsNear(v: real)
    ensures v - 1.0 < FloorRupee(v) <= v + EPS && Whole(FloorRupee(v))
  {
    FloorIsWhole(v);
  }

  /** The waiting terms quoted: the rule's own rate a minute if it has one, and never a negative line. */
  lemma WaitingTermsAre(rule: Rule, km: real, minutes: real, multiplier: real, maxMultiplier: real, waiting: Waiting, wait: real)
    ensures var q := QuoteFare(rule, km, minutes, multiplier, maxMultiplier, waiting, wait);
            && q.waitingCharge == 0.0
            && q.freeWaitMin >= 0.0 && (waiting.freeMin >= 0.0 ==> q.freeWaitMin == waiting.freeMin) && (waiting.freeMin < 0.0 ==> q.freeWaitMin == 0.0)
            && (rule.waitPerMin.Some? ==> WholePart(rule.waitPerMin.value, q.waitPerMin)) && (rule.waitPerMin.None? ==> WholePart(wait, q.waitPerMin))
            && WholePart(waiting.maxCharge, q.waitMaxCharge)
  {
    FlooredIsWholePart(if rule.waitPerMin.Some? then rule.waitPerMin.value else wait);
    FlooredIsWholePart(waiting.maxCharge);
  }

  /** Each line of the ride: km and minutes at their own rates, the multiplier asked for from 1 to the cap, and the top-up. */
  lemma RideLinesAre(rule: Rule, km: real, minutes: real, multiplier: real, maxMultiplier: real, waiting: Waiting, wait: real)
    ensures var q := QuoteFare(rule, km, minutes, multiplier, maxMultiplier, waiting, wait);
            var ride := rule.base + q.distanceCharge + q.timeCharge;
            && q.base == rule.base
            && rule.perKm * km - 1.0 < q.distanceCharge <= rule.perKm * km + EPS && Whole(q.distanceCharge)
            && rule.perMin * minutes - 1.0 < q.timeCharge <= rule.perMin * minutes + EPS && Whole(q.timeCharge)
            && (1.0 <= multiplier <= maxMultiplier ==> q.multiplier == multiplier)
            && (1.0 <= maxMultiplier <= multiplier ==> q.multiplier == maxMultiplier)
            && (multiplier <= 1.0 || maxMultiplier <= 1.0 ==> q.multiplier == 1.0)
            && ride * q.multiplier - 1.0 < q.total - q.minFareTopUp <= ride * q.multiplier + EPS
            && q.minFareTopUp >= 0.0 && q.total >= rule.minFare && (q.minFareTopUp > 0.0 ==> q.total == rule.minFare)
  {
    var m, d, t := Capped(multiplier, maxMultiplier), Charge(rule.perKm, km), Charge(rule.perMin, minutes);
    FloorIsNear(rule.perKm * km);
    FloorIsNear(rule.perMin * minutes);
    FloorIsNear(Ride(rule, km, minutes) * m);
    RideOfLines(rule, d, t, m, Charge(Ride(rule, km, minutes), m), waiting, wait);
  }

  lemma RideOfLines(rule: Rule, d: real, t: real, m: real, surged: real, waiting: Waiting, wait: real)
    ensures var q := Lines(rule, d, t, m, surged, waiting, wait);
            && q.base == rule.base && q.distanceCharge == d && q.timeCharge == t && q.multiplier == m && q.total - q.minFareTopUp == surged
            && q.minFareTopUp >= 0.0 && q.total >= rule.minFare && (q.minFareTopUp > 0.0 ==> q.total == rule.minFare)
  {
  }

  /** What callers pass: rates and a route that are not negative. */
  predicate RuleOk(rule: Rule, km: real, minutes: real) {
    rule.base >= 0.0 && rule.perKm >= 0.0 && rule.perMin >= 0.0 && km >= 0.0 && minutes >= 0.0
  }

  lemma ChargeOk(rate: real, n: real)
    requires rate >= 0.0 && n >= 0.0
    ensures Charge(rate, n) >= 0.0 && Whole(Charge(rate, n))
  {
    MulMono(0.0, rate, n);
    FloorMono(0.0, rate * n);
    FloorOfWhole(0.0);
    FloorIsWhole(rate * n);
  }

  lemma ChargeMono(rate: real, rate': real, n: real, n': real)
    requires 0.0 <= rate <= rate' && 0.0 <= n <= n'
    ensures Charge(rate, n) <= Charge(rate', n')
  {
    ProductMono(rate, rate', n, n');
    FloorMono(rate * n, rate' * n');
  }

  lemma ProductMono(x: real, x': real, y: real, y': real)
    requires 0.0 <= x <= x' && 0.0 <= y <= y'
    ensures x * y <= x' * y'
  {
    MulMono(x, x', y);
    MulMono(y, y', x');
  }

  lemma ThreeWhole(a: real, b: real, c: real)
    requires Whole(a) && Whole(b) && Whole(c)
    ensures Whole(a + b + c)
  {
    WholeSum(a, b);
    WholeSum(a + b, c);
  }

  lemma SurgedAtLeast(raw: real, m: real)
    requires raw >= 0.0 && m >= 1.0
    ensures Charge(raw, m) >= FloorRupee(raw) && Whole(Charge(raw, m))
  {
    GrowsBy(raw, m);
    FloorMono(raw, raw * m);
    FloorIsWhole(raw * m);
  }

  lemma GrowsBy(raw: real, m: real)
    requires raw >= 0.0 && m >= 1.0
    ensures raw <= raw * m
  {
    assert raw * (m - 1.0) >= 0.0;
  }

  predicate LinesOk(q: Quote) {
    && q.base >= 0.0 && q.distanceCharge >= 0.0 && q.timeCharge >= 0.0 && q.minFareTopUp >= 0.0 && q.peakCharge >= 0.0 && q.total >= 0.0
    && Whole(q.distanceCharge) && Whole(q.timeCharge) && Whole(q.minFareTopUp) && Whole(q.subtotal) && Whole(q.peakCharge) && Whole(q.total)
  }

  lemma WholeLines(rule: Rule, d: real, t: real, m: real, surged: real, waiting: Waiting, wait: real)
    requires rule.base >= 0.0 && d >= 0.0 && t >= 0.0 && surged >= rule.base + d + t
    requires Whole(rule.base) && Whole(rule.minFare) && Whole(d) && Whole(t) && Whole(surged)
    ensures LinesOk(Lines(rule, d, t, m, surged, waiting, wait))
  {
    assert Whole(0.0);
    ThreeWhole(rule.base, d, t);
    WholeSum(rule.minFare, surged);
    var topUp := MaxR(0.0, rule.minFare - surged);
    WholeSum(rule.base + d + t, topUp);
    WholeSum(surged, topUp);
    WholeSum(surged + topUp, rule.base + d + t + topUp);
  }

  /** With a whole-rupee base and minimum fare every line is a whole rupee and none is negative. */
  lemma QuoteLinesOk(rule: Rule, km: real, minutes: real, multiplier: real, maxMultiplier: real, waiting: Waiting, wait: real)
    requires RuleOk(rule, km, minutes) && Whole(rule.base) && Whole(rule.minFare)
    ensures LinesOk(QuoteFare(rule, km, minutes, multiplier, maxMultiplier, waiting, wait))
  {
    var m, d, t := Capped(multiplier, maxMultiplier), Charge(rule.perKm, km), Charge(rule.perMin, minutes);
    ChargeOk(rule.perKm, km);
    ChargeOk(rule.perMin, minutes);
    ThreeWhole(rule.base, d, t);
    SurgedAtLeast(rule.base + d + t, m);
    FloorOfWhole(rule.base + d + t);
    WholeLines(rule, d, t, m, Charge(rule.base + d + t, m), waiting, wait);
  }

  /** At any multiplier the peak line is negative exactly when the surged ride stays below the next whole rupee of the ride. */
  lemma PeakNegativeIff(rule: Rule, km: real, minutes: real, multiplier: real, maxMultiplier: real, waiting: Waiting, wait: real)
    ensures QuoteFare(rule, km, minutes, multiplier, maxMultiplier, waiting, wait).peakCharge < 0.0 <==>
            Ride(rule, km, minutes) * Capped(multiplier, maxMultiplier) + EPS < Ceil(Ride(rule, km, minutes)) as real
  {
    PeakIs(rule, km, minutes, multiplier, maxMultiplier, waiting, wait);
    ChargeBelowIff(Ride(rule, km, minutes), Capped(multiplier, maxMultiplier));
  }

  lemma PeakIs(rule: Rule, km: real, minutes: real, multiplier: real, maxMultiplier: real, waiting: Waiting, wait: real)
    ensures var raw := Ride(rule, km, minutes);
            QuoteFare(rule, km, minutes, multiplier, maxMultiplier, waiting, wait).peakCharge == Charge(raw, Capped(multiplier, maxMultiplier)) - raw
  {
    var d, t, m := Charge(rule.perKm, km), Charge(rule.perMin, minutes), Capped(multiplier, maxMultiplier);
    PeakOfLines(rule, d, t, m, Charge(rule.base + d + t, m), waiting, wait);
  }

  lemma PeakOfLines(rule: Rule, d: real, t: real, m: real, surged: real, waiting: Waiting, wait: real)
    ensures Lines(rule, d, t, m, surged, waiting, wait).peakCharge == surged - (rule.base + d + t)
  {
  }

  lemma ChargeBelowIff(raw: real, m: real)
    ensures Charge(raw, m) < raw <==> raw * m + EPS < Ceil(raw) as real
  {
    FloorBelowIff(raw * m, raw);
  }

  lemma FloorBelowIff(v: real, raw: real)
    ensures FloorRupee(v) < raw <==> v + EPS < Ceil(raw) as real
  {
    var n, c := (v + EPS).Floor, Ceil(raw);
    assert c as real - 1.0 < raw <= c as real;
    assert n as real < raw <==> n < c;
    assert n < c <==> v + EPS < c as real;
  }

  /** A base of 20.50, which no stored rule has, shows what the whole rupees are for: the peak line says -0.50. */
  lemma PeakCanBeNegative(waiting: Waiting, wait: real)
    ensures var q := QuoteFare(Rule(20.5, 0.0, 0.0, 0.0, None), 0.0, 0.0, 1.0, 1.5, waiting, wait);
            q.peakCharge == -0.5 && q.total == 20.0
  {
    assert (20.5 + EPS).Floor == 20 && EPS.Floor == 0;
  }

  /** More road, more time, dearer rates, a dearer minimum or more surge never make a ride cheaper. */
  lemma TotalMonotone(r: Rule, r': Rule, km: real, km': real, minutes: real, minutes': real, mult: real, mult': real, cap: real, waiting: Waiting, wait: real)
    requires RuleOk(r, km, minutes) && km <= km' && minutes <= minutes' && mult <= mult'
    requires r.base <= r'.base && r.perKm <= r'.perKm && r.perMin <= r'.perMin && r.minFare <= r'.minFare
    ensures QuoteFare(r, km, minutes, mult, cap, waiting, wait).total <= QuoteFare(r', km', minutes', mult', cap, waiting, wait).total
  {
    ChargeMono(r.perKm, r'.perKm, km, km');
    ChargeMono(r.perMin, r'.perMin, minutes, minutes');
    ChargeOk(r.perKm, km);
    ChargeOk(r.perMin, minutes);
    ChargeMono(Ride(r, km, minutes), Ride(r', km', minutes'), Capped(mult, cap), Capped(mult', cap));
    QuoteAddsUp(r, km, minutes, mult, cap, waiting, wait);
    QuoteAddsUp(r', km', minutes', mult', cap, waiting, wait);
  }

  // --------------------------------------------------------------------------------------------------- waiting

  function WaitingCharge(waitedMs: real, freeMin: real, perMin: real, maxCharge: real): real {
    var overMs := waitedMs - MaxR(0.0, freeMin) * MINUTE_MS;
    if !(overMs > 0.0) || perMin <= 0.0 || maxCharge <= 0.0 then 0.0
    else MinR(Floor(maxCharge) as real, Ceil(overMs / MINUTE_MS - EPS) as real * Floor(perMin) as real)
  }

  /** For any terms: k whole rates, up to the cap, while the wait is in the k-th minute past the free ones. */
  lemma MinuteCosts(waitedMs: real, freeMin: real, perMin: real, maxCharge: real, k: int)
    requires perMin > 0.0 && maxCharge > 0.0 && k >= 1 && waitedMs > MaxR(0.0, freeMin) * MINUTE_MS
    requires var minutes := (waitedMs - MaxR(0.0, freeMin) * MINUTE_MS) / MINUTE_MS; (k - 1) as real + EPS < minutes <= k as real + EPS
    ensures WaitingCharge(waitedMs, freeMin, perMin, maxCharge) == MinR(Floor(maxCharge) as real, k as real * Floor(perMin) as real)
  {
    var minutes := (waitedMs - MaxR(0.0, freeMin) * MINUTE_MS) / MINUTE_MS;
    CeilIs(minutes - EPS, k);
  }

  lemma CeilIs(x: real, k: int)
    requires (k - 1) as real < x <= k as real
    ensures Ceil(x) == k
  {
  }

  /** So on a clock of whole milliseconds every started minute counts from its first millisecond on. */
  lemma EveryStartedMinute(waitedMs: int, freeMin: nat, perMin: nat, maxCharge: nat, k: int)
    requires k >= 1 && (k - 1) * 60_000 < waitedMs - freeMin * 60_000 <= k * 60_000 && perMin > 0 && maxCharge > 0
    ensures WaitingCharge(waitedMs as real, freeMin as real, perMin as real, maxCharge as real) == MinI(maxCharge, k * perMin) as real
  {
    var over := waitedMs - freeMin * 60_000;
    StartedMinutes(over, k);
    assert waitedMs as real - freeMin as real * MINUTE_MS == over as real;
    assert (maxCharge as real).Floor == maxCharge && (perMin as real).Floor == perMin;
    assert k as real * perMin as real == (k * perMin) as real;
  }

  lemma StartedMinutes(over: int, k: int)
    requires k >= 1 && (k - 1) * 60_000 < over <= k * 60_000
    ensures Ceil(over as real / MINUTE_MS - EPS) == k
  {
    var x := over as real / MINUTE_MS;
    assert x * MINUTE_MS == over as real;
    assert over >= (k - 1) * 60_000 + 1;
    assert x >= (k - 1) as real + 1.0 / MINUTE_MS;
    assert x <= k as real;
    var y := -(x - EPS);
    assert -(k as real) <= y < -((k - 1) as real);
  }

  /** With a rupee or more to charge, nothing is charged exactly inside the free minutes (to within the nudge). */
  lemma FreeMinutesAreFree(waitedMs: real, freeMin: real, perMin: real, maxCharge: real)
    ensures var over := waitedMs - MaxR(0.0, freeMin) * MINUTE_MS; var charge := WaitingCharge(waitedMs, freeMin, perMin, maxCharge);
            && (over <= 0.0 ==> charge == 0.0)
            && (perMin >= 1.0 && maxCharge >= 1.0 ==> (charge == 0.0 <==> over <= EPS * MINUTE_MS))
  {
    var over := waitedMs - MaxR(0.0, freeMin) * MINUTE_MS;
    if over > 0.0 && perMin >= 1.0 && maxCharge >= 1.0 {
      var minutes := Ceil(over / MINUTE_MS - EPS);
      StartedIff(over / MINUTE_MS);
      if minutes >= 1 { MulMono(1.0, minutes as real, Floor(perMin) as real); }
    }
  }

  lemma StartedIff(minutes: real)
    requires minutes > 0.0
    ensures Ceil(minutes - EPS) >= 0 && (Ceil(minutes - EPS) == 0 <==> minutes <= EPS)
  {
    var y := -(minutes - EPS);
    assert y.Floor <= 0;
  }

  function WithWaitingCharge(q: Quote, charge: real): Quote {
    q.(waitingCharge := charge, total := q.total - q.waitingCharge + charge)
  }

  /** The lines still add up, the last waiting line set wins, and setting the old one back gives the old fare. */
  lemma WaitingLineReplaces(q: Quote, a: real, b: real)
    requires AddsUp(q)
    ensures AddsUp(WithWaitingCharge(q, a))
    ensures WithWaitingCharge(WithWaitingCharge(q, a), b) == WithWaitingCharge(q, b)
    ensures WithWaitingCharge(WithWaitingCharge(q, a), q.waitingCharge) == q
  {
  }

  // ----------------------------------------------------------------------------------------- the admin's preview

  datatype Preview = Preview(base: real, distanceCharge: real, timeCharge: real, minFareTopUp: real, subtotal: real, multiplier: real, peakCharge: real, total: real)

  function PreviewFare(rule: Rule, km: real, minutes: real, multiplier: real, maxMultiplier: real): Preview {
    var cap := MaxR(1.0, maxMultiplier);
    var m := MinR(cap, MaxR(1.0, multiplier));
    var distanceCharge, timeCharge := Charge(rule.perKm, MaxR(0.0, km)), Charge(rule.perMin, MaxR(0.0, minutes));
    PreviewLines(rule, distanceCharge, timeCharge, m, Charge(rule.base + distanceCharge + timeCharge, m))
  }

  function PreviewLines(rule: Rule, distanceCharge: real, timeCharge: real, m: real, surged: real): Preview {
    var raw := rule.base + distanceCharge + timeCharge;
    var minFareTopUp := MaxR(0.0, rule.minFare - surged);
    var subtotal := raw + minFareTopUp;
    var total := surged + minFareTopUp;
    Preview(rule.base, distanceCharge, timeCharge, minFareTopUp, subtotal, m, total - subtotal, total)
  }

  function Shown(q: Quote): Preview {
    Preview(q.base, q.distanceCharge, q.timeCharge, q.minFareTopUp, q.subtotal, q.multiplier, q.peakCharge, q.total)
  }

  /** What the panel's calculator passes as the cap: nothing, so the preview's own default. */
  const PREVIEW_CAP: real := 1.5

  /** Both sides charge the same multiplier: the caps are the same, or neither cuts it. */
  predicate CapsAgree(multiplier: real, previewCap: real, cap: real) {
    var a, b, m := MaxR(1.0, previewCap), MaxR(1.0, cap), MaxR(1.0, multiplier);
    a == b || (m <= a && m <= b)
  }

  /** The preview shows the fare's own lines exactly when the caps agree and the route's charges are not below zero. */
  lemma PreviewIsFareIff(rule: Rule, km: real, minutes: real, multiplier: real, previewCap: real, cap: real, waiting: Waiting, wait: real)
    requires rule.perKm >= 0.0 && rule.perMin >= 0.0
    ensures PreviewFare(rule, km, minutes, multiplier, previewCap) == Shown(QuoteFare(rule, km, minutes, multiplier, cap, waiting, wait))
            <==> CapsAgree(multiplier, previewCap, cap) && rule.perKm * km >= -EPS && rule.perMin * minutes >= -EPS
  {
    NegativeCharge(rule.perKm, km);
    NegativeCharge(rule.perMin, minutes);
    var m, d, t := Capped(multiplier, cap), Charge(rule.perKm, km), Charge(rule.perMin, minutes);
    SameLines(rule, d, t, m, Charge(rule.base + d + t, m), waiting, wait);
    assert CapsAgree(multiplier, previewCap, cap) <==> Capped(multiplier, previewCap) == m;
  }

  /** On every route the fares quote, the calculator shows the fare exactly when its cap of 1.5 and the setting agree. */
  lemma CalculatorIsFareIff(rule: Rule, km: real, minutes: real, multiplier: real, maxMultiplier: real, waiting: Waiting, wait: real)
    requires RuleOk(rule, km, minutes)
    ensures PreviewFare(rule, km, minutes, multiplier, PREVIEW_CAP) == Shown(QuoteFare(rule, km, minutes, multiplier, maxMultiplier, waiting, wait))
            <==> MaxR(1.0, maxMultiplier) == PREVIEW_CAP || multiplier <= MinR(PREVIEW_CAP, MaxR(1.0, maxMultiplier))
  {
    MulMono(0.0, km, rule.perKm);
    MulMono(0.0, minutes, rule.perMin);
    PreviewIsFareIff(rule, km, minutes, multiplier, PREVIEW_CAP, maxMultiplier, waiting, wait);
  }

  /** With the setting at 1.2 and 1.4 typed, the calculator surges 1.4 on every route, and the fare 1.2: of 100, 140 and 120. */
  lemma PreviewCanDiffer(rule: Rule, km: real, minutes: real, waiting: Waiting, wait: real)
    requires RuleOk(rule, km, minutes)
    ensures PreviewFare(rule, km, minutes, 1.4, PREVIEW_CAP) != Shown(QuoteFare(rule, km, minutes, 1.4, 1.2, waiting, wait))
    ensures Ride(rule, km, minutes) == 100.0 && rule.minFare <= 100.0 ==>
              PreviewFare(rule, km, minutes, 1.4, PREVIEW_CAP).total == 140.0 && QuoteFare(rule, km, minutes, 1.4, 1.2, waiting, wait).total == 120.0
  {
    CalculatorIsFareIff(rule, km, minutes, 1.4, 1.2, waiting, wait);
    FloorOfWhole(140.0);
    FloorOfWhole(120.0);
  }

  lemma SameLines(rule: Rule, d: real, t: real, m: real, surged: real, waiting: Waiting, wait: real)
    ensures PreviewLines(rule, d, t, m, surged) == Shown(Lines(rule, d, t, m, surged, waiting, wait))
  {
  }

  lemma NegativeCharge(rate: real, n: real)
    requires rate >= 0.0
    ensures Charge(rate, MaxR(0.0, n)) == Charge(rate, n) <==> rate * n >= -EPS
  {
    if n >= 0.0 {
      MulMono(0.0, n, rate);
    } else {
      MulMono(n, 0.0, rate);
      ZeroIff(rate * n);
      assert rate * 0.0 == 0.0;
    }
  }

  lemma ZeroIff(v: real)
    requires v <= 0.0
    ensures FloorRupee(0.0) == FloorRupee(v) <==> v >= -EPS
  {
    FloorOfWhole(0.0);
    if v >= -EPS {
      assert (v + EPS).Floor == 0;
    } else {
      assert (v + EPS).Floor < 0;
    }
  }
}
