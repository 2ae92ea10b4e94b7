/**
 * A city's own prices: each stored section is JSON of any shape, checked as a whole, and a section that does not
 * parse falls back to the built-in one.
 */
module Pricing {
  import opened JsMath
  import opened RideModes

  datatype Json = JNull | JBool(b: bool) | JNum(n: real) | JStr(s: string) | JArr(items: seq<Json>) | JObj(fields: map<string, Json>)

  datatype Result<+T> = Ok(value: T) | Err(what: string)

  /** A field of anything: null when it is missing or there is no object. */
  function Get(j: Json, key: string): Json { if j.JObj? && key in j.fields then j.fields[key] else JNull }

  predicate Whole(n: real) { n == n.Floor as real }

  predicate InRange(n: real, min: real, max: real, whole: bool) { min <= n <= max && (whole ==> Whole(n)) }

  /** A number within [min, max] (whole when asked), or what is wrong. */
  function Num(j: Json, what: string, min: real, max: real, whole: bool): Result<real> {
    if !j.JNum? || j.n < min || j.n > max || (whole && !Whole(j.n)) then Err(what) else Ok(j.n)
  }

  // ------------------------------------------------------------------------- every key of a section, one by one

  /** The items of `keys`, in order, each read by `item`; the first error ends it. */
  function ParseEach<T>(keys: seq<string>, j: Json, item: (string, Json) -> Result<T>): Result<map<string, T>> {
    if keys == [] then Ok(map[])
    else
      var rest := ParseEach(keys[..|keys| - 1], j, item);
      var k := keys[|keys| - 1];
      if rest.Err? then Err(rest.what)
      else
        var r := item(k, Get(j, k));
        if r.Err? then Err(r.what) else Ok(rest.value[k := r.value])
  }

  /** The loop over the keys that fills the section. */
  method ParseSection<T>(keys: seq<string>, j: Json, item: (string, Json) -> Result<T>) returns (r: Result<map<string, T>>)
    ensures r == ParseEach(keys, j, item)
  {
    var out: map<string, T> := map[];
    for i := 0 to |keys|
      invariant ParseEach(keys[..i], j, item) == Ok(out)
    {
      assert keys[..i + 1][..i] == keys[..i];
      var v := item(keys[i], Get(j, keys[i]));
      if v.Err? {
        EarlyError(keys, i + 1, j, item);
        return Err(v.what);
      }
      out := out[keys[i] := v.value];
    }
    assert keys[..|keys|] == keys;
    return Ok(out);
  }

  lemma {:induction false} EarlyError<T>(keys: seq<string>, i: nat, j: Json, item: (string, Json) -> Result<T>)
    requires i <= |keys| && ParseEach(keys[..i], j, item).Err?
    ensures ParseEach(keys, j, item) == ParseEach(keys[..i], j, item)
  {
    if i < |keys| {
      assert keys[..|keys| - 1][..i] == keys[..i];
      EarlyError(keys[..|keys| - 1], i, j, item);
    } else {
      assert keys[..i] == keys;
    }
  }

  /** A section parses to exactly its items, when every one of them does. */
  lemma {:induction false} ParseEachIff<T>(keys: seq<string>, j: Json, item: (string, Json) -> Result<T>)
    ensures ParseEach(keys, j, item).Ok? <==> forall k | k in keys :: item(k, Get(j, k)).Ok?
    ensures ParseEach(keys, j, item).Ok? ==>
              && ParseEach(keys, j, item).value.Keys == (set k | k in keys)
              && forall k | k in keys :: ParseEach(keys, j, item).value[k] == item(k, Get(j, k)).value
  {
    if keys != [] {
      var init := keys[..|keys| - 1];
      ParseEachIff(init, j, item);
      assert keys == init + [keys[|keys| - 1]];
    }
  }

  /** An object reads as a section when each of its keys reads as its item; other keys are ignored. */
  predicate MapReads<T>(keys: seq<string>, j: Json, v: map<string, T>, reads_: (Json, T) -> bool) {
    j.JObj? && v.Keys == (set k | k in keys) && forall k | k in keys :: reads_(Get(j, k), v[k])
  }

  // ----------------------------------------------------------------------------------------------------- rentals

  const CAB_TIERS: seq<string> := ["CAB", "SEDAN", "SUV"]
  const GOODS_TRUCKS: seq<string> := ["THREE_WHEELER", "MINI_TRUCK", "PICKUP", "TRUCK"]
  const HOME_SIZES: seq<string> := ["FEW_ITEMS", "ONE_RK", "ONE_BHK", "TWO_BHK", "THREE_BHK"]

  predicate PricesOk(prices: seq<real>) {
    && |prices| == |RENTAL_PACKAGES| && (forall i | 0 <= i < |prices| :: InRange(prices[i], 1.0, 50_000.0, true))
    && (forall i | 1 <= i < |prices| :: prices[i - 1] <= prices[i])
  }

  predicate RentalOk(r: RentalRate) {
    PricesOk(r.prices) && InRange(r.extraKm, 0.0, 200.0, false) && InRange(r.extraMin, 0.0, 50.0, false)
  }

  /** `map` over the prices: the first bad one is the error. */
  function ParsePrices(items: seq<Json>): Result<seq<real>> {
    if items == [] then Ok([])
    else
      var rest := ParsePrices(items[..|items| - 1]);
      if rest.Err? then Err(rest.what)
      else
        var r := Num(items[|items| - 1], "package price", 1.0, 50_000.0, true);
        if r.Err? then Err(r.what) else Ok(rest.value + [r.value])
  }

  function ParseRental(tier: string, j: Json): Result<RentalRate> {
    var prices := Get(j, "prices");
    if !j.JObj? || !prices.JArr? || |prices.items| != |RENTAL_PACKAGES| then Err(tier + ": a price for each package")
    else
      var p := ParsePrices(prices.items);
      if p.Err? then Err(p.what)
      else if exists i | 1 <= i < |p.value| :: p.value[i] < p.value[i - 1] then Err(tier + ": a longer package can't cost less")
      else
        var km := Num(Get(j, "extraKm"), tier + " extra per km", 0.0, 200.0, false);
        var min := Num(Get(j, "extraMin"), tier + " extra per min", 0.0, 50.0, false);
        if km.Err? then Err(km.what) else if min.Err? then Err(min.what) else Ok(RentalRate(p.value, km.value, min.value))
  }

  function JNums(q: seq<real>): (s: seq<Json>)
    ensures |s| == |q|
  {
    seq(|q|, i requires 0 <= i < |q| => JNum(q[i]))
  }

  predicate RentalReads(j: Json, r: RentalRate) {
    j.JObj? && Get(j, "prices") == JArr(JNums(r.prices)) && Get(j, "extraKm") == JNum(r.extraKm) && Get(j, "extraMin") == JNum(r.extraMin)
  }

  predicate AllInRange(q: seq<real>) { forall i | 0 <= i < |q| :: InRange(q[i], 1.0, 50_000.0, true) }

  lemma {:induction false} PricesParse(items: seq<Json>)
    ensures var p := ParsePrices(items); p.Ok? ==> items == JNums(p.value) && AllInRange(p.value)
  {
    if items != [] {
      PricesParse(items[..|items| - 1]);
      var p := ParsePrices(items);
      if p.Ok? {
        assert p.value[..|items| - 1] == ParsePrices(items[..|items| - 1]).value;
        assert items == items[..|items| - 1] + [items[|items| - 1]];
        assert JNums(p.value) == JNums(p.value[..|items| - 1]) + [JNum(p.value[|items| - 1])];
      }
    }
  }

  lemma {:induction false} PricesReparse(q: seq<real>)
    requires AllInRange(q)
    ensures ParsePrices(JNums(q)) == Ok(q)
  {
    if q != [] {
      PricesReparse(q[..|q| - 1]);
      assert JNums(q)[..|q| - 1] == JNums(q[..|q| - 1]);
      assert q == q[..|q| - 1] + [q[|q| - 1]];
    }
  }

  /** A tier's rental rate is accepted exactly when it is in range and the object holds it. */
  lemma RentalIff(tier: string, j: Json, r: RentalRate)
    ensures ParseRental(tier, j) == Ok(r) <==> RentalOk(r) && RentalReads(j, r)
  {
    if j.JObj? && Get(j, "prices").JArr? {
      PricesParse(Get(j, "prices").items);
      if RentalOk(r) && RentalReads(j, r) { PricesReparse(r.prices); }
    }
  }

  // -------------------------------------------------------------------------------------------------- outstation

  predicate OutstationOk(r: OutstationRate) {
    && InRange(r.oneWayPerKm, 1.0, 200.0, false) && InRange(r.roundTripPerKm, 1.0, 200.0, false)
    && InRange(r.allowancePerDay, 0.0, 5_000.0, true) && InRange(r.oneWayMinKm, 0.0, 500.0, true)
    && InRange(r.roundTripKmPerDay, 1.0, 1_000.0, true)
  }

  function ParseOutstation(tier: string, j: Json): Result<OutstationRate> {
    if !j.JObj? then Err(tier + ": rates are missing")
    else
      var one := Num(Get(j, "oneWayPerKm"), tier + " one way per km", 1.0, 200.0, false);
      if one.Err? then Err(one.what) else
      var round := Num(Get(j, "roundTripPerKm"), tier + " round trip per km", 1.0, 200.0, false);
      if round.Err? then Err(round.what) else
      var allowance := Num(Get(j, "allowancePerDay"), tier + " driver allowance", 0.0, 5_000.0, true);
      if allowance.Err? then Err(allowance.what) else
      var minKm := Num(Get(j, "oneWayMinKm"), tier + " one way minimum km", 0.0, 500.0, true);
      if minKm.Err? then Err(minKm.what) else
      var perDay := Num(Get(j, "roundTripKmPerDay"), tier + " km a day", 1.0, 1_000.0, true);
      if perDay.Err? then Err(perDay.what) else Ok(OutstationRate(one.value, round.value, allowance.value, minKm.value, perDay.value))
  }

  predicate OutstationReads(j: Json, r: OutstationRate) {
    && j.JObj? && Get(j, "oneWayPerKm") == JNum(r.oneWayPerKm) && Get(j, "roundTripPerKm") == JNum(r.roundTripPerKm)
    && Get(j, "allowancePerDay") == JNum(r.allowancePerDay) && Get(j, "oneWayMinKm") == JNum(r.oneWayMinKm)
    && Get(j, "roundTripKmPerDay") == JNum(r.roundTripKmPerDay)
  }

  lemma OutstationIff(tier: string, j: Json, r: OutstationRate)
    ensures ParseOutstation(tier, j) == Ok(r) <==> OutstationOk(r) && OutstationReads(j, r)
  {
  }

  // -------------------------------------------------------------------------------------------- goods outstation

  datatype GoodsRate = GoodsRate(perKm: real, minKm: real)

  predicate GoodsOk(r: GoodsRate) { InRange(r.perKm, 1.0, 500.0, false) && InRange(r.minKm, 0.0, 500.0, true) }

  function ParseGoods(truck: string, j: Json): Result<GoodsRate> {
    if !j.JObj? then Err(truck + ": rates are missing")
    else
      var perKm := Num(Get(j, "perKm"), truck + " per km", 1.0, 500.0, false);
      if perKm.Err? then Err(perKm.what) else
      var minKm := Num(Get(j, "minKm"), truck + " minimum km", 0.0, 500.0, true);
      if minKm.Err? then Err(minKm.what) else Ok(GoodsRate(perKm.value, minKm.value))
  }

  predicate GoodsReads(j: Json, r: GoodsRate) { j.JObj? && Get(j, "perKm") == JNum(r.perKm) && Get(j, "minKm") == JNum(r.minKm) }

  lemma GoodsIff(truck: string, j: Json, r: GoodsRate)
    ensures ParseGoods(truck, j) == Ok(r) <==> GoodsOk(r) && GoodsReads(j, r)
  {
  }

  // ---------------------------------------------------------------------------------------------- house shifting

  datatype SizeRate = SizeRate(vehicle: string, helpers: real, basic: real, full: real, unpack: real)

  datatype ShiftingRates = ShiftingRates(sizes: map<string, SizeRate>, helperCity: real, helperBetween: real, stairsPerFloor: real, dismantlePerPiece: real, weekendPct: real)

  predicate SizeOk(r: SizeRate) {
    && r.vehicle in GOODS_TRUCKS && InRange(r.helpers, 0.0, 10.0, true) && InRange(r.basic, 0.0, 50_000.0, true)
    && InRange(r.full, 0.0, 50_000.0, true) && InRange(r.unpack, 0.0, 50_000.0, true)
  }

  function ParseSize(size: string, j: Json): Result<SizeRate> {
    var packing, vehicle := Get(j, "packing"), Get(j, "vehicle");
    if !j.JObj? || !packing.JObj? then Err(size + ": prices are missing")
    else if !vehicle.JStr? || vehicle.s !in GOODS_TRUCKS then Err(size + ": choose a goods truck")
    else
      var helpers := Num(Get(j, "helpers"), size + " helpers", 0.0, 10.0, true);
      if helpers.Err? then Err(helpers.what) else
      var basic := Num(Get(packing, "BASIC"), size + " basic packing", 0.0, 50_000.0, true);
      if basic.Err? then Err(basic.what) else
      var full := Num(Get(packing, "FULL"), size + " full packing", 0.0, 50_000.0, true);
      if full.Err? then Err(full.what) else
      var unpack := Num(Get(j, "unpack"), size + " unpacking", 0.0, 50_000.0, true);
      if unpack.Err? then Err(unpack.what) else Ok(SizeRate(vehicle.s, helpers.value, basic.value, full.value, unpack.value))
  }

  predicate SizeReads(j: Json, r: SizeRate) {
    && j.JObj? && Get(j, "packing").JObj? && Get(j, "vehicle") == JStr(r.vehicle) && Get(j, "helpers") == JNum(r.helpers)
    && Get(Get(j, "packing"), "BASIC") == JNum(r.basic) && Get(Get(j, "packing"), "FULL") == JNum(r.full) && Get(j, "unpack") == JNum(r.unpack)
  }

  lemma SizeIff(size: string, j: Json, r: SizeRate)
    ensures ParseSize(size, j) == Ok(r) <==> SizeOk(r) && SizeReads(j, r)
  {
  }

  predicate ShiftingOk(r: ShiftingRates) {
    && EachOk(HOME_SIZES, r.sizes, SizeOk)
    && InRange(r.helperCity, 0.0, 10_000.0, true) && InRange(r.helperBetween, 0.0, 10_000.0, true)
    && InRange(r.stairsPerFloor, 0.0, 5_000.0, true) && InRange(r.dismantlePerPiece, 0.0, 5_000.0, true)
    && InRange(r.weekendPct, 0.0, 100.0, true)
  }

  function ParseExtras(j: Json, sizes: map<string, SizeRate>): Result<ShiftingRates> {
    var city := Num(Get(j, "helperCity"), "Helper in town", 0.0, 10_000.0, true);
    if city.Err? then Err(city.what) else
    var between := Num(Get(j, "helperBetween"), "Helper to another town", 0.0, 10_000.0, true);
    if between.Err? then Err(between.what) else
    var stairs := Num(Get(j, "stairsPerFloor"), "Stairs per floor", 0.0, 5_000.0, true);
    if stairs.Err? then Err(stairs.what) else
    var dismantle := Num(Get(j, "dismantlePerPiece"), "Taking apart per piece", 0.0, 5_000.0, true);
    if dismantle.Err? then Err(dismantle.what) else
    var weekend := Num(Get(j, "weekendPct"), "Weekend extra %", 0.0, 100.0, true);
    if weekend.Err? then Err(weekend.what)
    else Ok(ShiftingRates(sizes, city.value, between.value, stairs.value, dismantle.value, weekend.value))
  }

  // ---------------------------------------------------------------------------------------------------- sections

  /** Every key of a section is there, no other, and each rate is in range. */
  predicate EachOk<T(!new)>(keys: seq<string>, v: map<string, T>, ok: T -> bool) {
    v.Keys == (set k | k in keys) && forall k | k in v :: ok(v[k])
  }

  function MapSection<T>(keys: seq<string>, j: Json, missing: string, item: (string, Json) -> Result<T>): Result<map<string, T>> {
    if !j.JObj? then Err(missing) else ParseEach(keys, j, item)
  }

  function RentalSection(j: Json): Result<map<string, RentalRate>> { MapSection(CAB_TIERS, j, "Rental prices are missing", ParseRental) }

  function OutstationSection(j: Json): Result<map<string, OutstationRate>> { MapSection(CAB_TIERS, j, "Outstation rates are missing", ParseOutstation) }

  function GoodsSection(j: Json): Result<map<string, GoodsRate>> { MapSection(GOODS_TRUCKS, j, "Goods rates are missing", ParseGoods) }

  function ShiftingSection(j: Json): Result<ShiftingRates> {
    if !j.JObj? || !Get(j, "sizes").JObj? then Err("Shifting prices are missing")
    else
      var sizes := ParseEach(HOME_SIZES, Get(j, "sizes"), ParseSize);
      if sizes.Err? then Err(sizes.what) else ParseExtras(j, sizes.value)
  }

  predicate ExtrasRead(j: Json, r: ShiftingRates) {
    && Get(j, "helperCity") == JNum(r.helperCity) && Get(j, "helperBetween") == JNum(r.helperBetween)
    && Get(j, "stairsPerFloor") == JNum(r.stairsPerFloor) && Get(j, "dismantlePerPiece") == JNum(r.dismantlePerPiece)
    && Get(j, "weekendPct") == JNum(r.weekendPct)
  }

  predicate RentalsOk(v: map<string, RentalRate>) { EachOk(CAB_TIERS, v, RentalOk) }

  predicate RentalsRead(j: Json, v: map<string, RentalRate>) { MapReads(CAB_TIERS, j, v, RentalReads) }

  predicate OutstationsOk(v: map<string, OutstationRate>) { EachOk(CAB_TIERS, v, OutstationOk) }

  predicate OutstationsRead(j: Json, v: map<string, OutstationRate>) { MapReads(CAB_TIERS, j, v, OutstationReads) }

  predicate AllGoodsOk(v: map<string, GoodsRate>) { EachOk(GOODS_TRUCKS, v, GoodsOk) }

  predicate AllGoodsRead(j: Json, v: map<string, GoodsRate>) { MapReads(GOODS_TRUCKS, j, v, GoodsReads) }

  predicate ShiftingReads(j: Json, r: ShiftingRates) {
    j.JObj? && MapReads(HOME_SIZES, Get(j, "sizes"), r.sizes, SizeReads) && ExtrasRead(j, r)
  }

  /** A parser accepts a value exactly when it is in range and the JSON holds it. */
  ghost predicate Exact<S(!new)>(parse: Json -> Result<S>, ok: S -> bool, reads_: (Json, S) -> bool) {
    forall j, v :: parse(j) == Ok(v) <==> ok(v) && reads_(j, v)
  }

  lemma MapSectionExact<T(!new)>(keys: seq<string>, missing: string, item: (string, Json) -> Result<T>, ok: T -> bool, reads_: (Json, T) -> bool)
    requires forall k, j, t :: item(k, j) == Ok(t) <==> ok(t) && reads_(j, t)
    ensures forall j, v :: MapSection(keys, j, missing, item) == Ok(v) <==> EachOk(keys, v, ok) && MapReads(keys, j, v, reads_)
  {
    forall j, v ensures MapSection(keys, j, missing, item) == Ok(v) <==> EachOk(keys, v, ok) && MapReads(keys, j, v, reads_) {
      ParseEachIff(keys, j, item);
      if EachOk(keys, v, ok) && MapReads(keys, j, v, reads_) {
        forall k | k in keys ensures item(k, Get(j, k)) == Ok(v[k]) { assert k in v.Keys; }
        assert ParseEach(keys, j, item).value == v;
      } else if MapSection(keys, j, missing, item) == Ok(v) {
        forall k | k in keys ensures ok(v[k]) && reads_(Get(j, k), v[k]) { assert item(k, Get(j, k)) == Ok(v[k]); }
      }
    }
  }

  lemma RentalSectionExact()
    ensures Exact(RentalSection, RentalsOk, RentalsRead)
  {
    forall k, j, t ensures ParseRental(k, j) == Ok(t) <==> RentalOk(t) && RentalReads(j, t) { RentalIff(k, j, t); }
    MapSectionExact(CAB_TIERS, "Rental prices are missing", ParseRental, RentalOk, RentalReads);
  }

  lemma OutstationSectionExact()
    ensures Exact(OutstationSection, OutstationsOk, OutstationsRead)
  {
    forall k, j, t ensures ParseOutstation(k, j) == Ok(t) <==> OutstationOk(t) && OutstationReads(j, t) { OutstationIff(k, j, t); }
    MapSectionExact(CAB_TIERS, "Outstation rates are missing", ParseOutstation, OutstationOk, OutstationReads);
  }

  lemma GoodsSectionExact()
    ensures Exact(GoodsSection, AllGoodsOk, AllGoodsRead)
  {
    forall k, j, t ensures ParseGoods(k, j) == Ok(t) <==> GoodsOk(t) && GoodsReads(j, t) { GoodsIff(k, j, t); }
    MapSectionExact(GOODS_TRUCKS, "Goods rates are missing", ParseGoods, GoodsOk, GoodsReads);
  }

  lemma ExtrasIff(j: Json, sizes: map<string, SizeRate>, r: ShiftingRates)
    requires EachOk(HOME_SIZES, sizes, SizeOk)
    ensures ParseExtras(j, sizes) == Ok(r) <==> r.sizes == sizes && ShiftingOk(r) && ExtrasRead(j, r)
  {
  }

  lemma ShiftingSectionExact()
    ensures Exact(ShiftingSection, ShiftingOk, ShiftingReads)
  {
    forall k, j, t ensures ParseSize(k, j) == Ok(t) <==> SizeOk(t) && SizeReads(j, t) { SizeIff(k, j, t); }
    MapSectionExact(HOME_SIZES, "", ParseSize, SizeOk, SizeReads);
    forall j, r ensures ShiftingSection(j) == Ok(r) <==> ShiftingOk(r) && ShiftingReads(j, r) {
      ShiftingIff(j, r);
    }
  }

  lemma ShiftingIff(j: Json, r: ShiftingRates)
    requires forall j, v :: MapSection(HOME_SIZES, j, "", ParseSize) == Ok(v) <==> EachOk(HOME_SIZES, v, SizeOk) && MapReads(HOME_SIZES, j, v, SizeReads)
    ensures ShiftingSection(j) == Ok(r) <==> ShiftingOk(r) && ShiftingReads(j, r)
  {
    var sizes := MapSection(HOME_SIZES, Get(j, "sizes"), "", ParseSize);
    if sizes.Ok? {
      assert sizes == Ok(sizes.value);
      ExtrasIff(j, sizes.value, r);
    }
  }

  // -------------------------------------------------------------------------------------- the effective price book

  datatype Prices = Prices(rental: map<string, RentalRate>, outstation: map<string, OutstationRate>, goodsOutstation: map<string, GoodsRate>, shifting: ShiftingRates)

  const CAB_RENTAL: RentalRate := RentalRate([249.0, 449.0, 649.0, 849.0, 1249.0, 1599.0, 1999.0, 2349.0], 12.0, 2.0)
  const SEDAN_RENTAL: RentalRate := RentalRate([289.0, 519.0, 749.0, 979.0, 1429.0, 1849.0, 2299.0, 2699.0], 14.0, 2.5)
  const SUV_RENTAL: RentalRate := RentalRate([379.0, 679.0, 979.0, 1279.0, 1879.0, 2399.0, 2999.0, 3499.0], 18.0, 3.0)

  const RENTAL_RATES: map<string, RentalRate> := map["CAB" := CAB_RENTAL, "SEDAN" := SEDAN_RENTAL, "SUV" := SUV_RENTAL]

  const OUTSTATION_RATES: map<string, OutstationRate> :=
    map["CAB" := OutstationRate(14.0, 11.0, 300.0, 60.0, 250.0),
        "SEDAN" := OutstationRate(15.0, 12.0, 300.0, 60.0, 250.0),
        "SUV" := OutstationRate(19.0, 16.0, 400.0, 60.0, 250.0)]

  const GOODS_OUTSTATION_RATES: map<string, GoodsRate> :=
    map["THREE_WHEELER" := GoodsRate(22.0, 40.0), "MINI_TRUCK" := GoodsRate(26.0, 40.0), "PICKUP" := GoodsRate(30.0, 40.0), "TRUCK" := GoodsRate(45.0, 40.0)]

  const DEFAULT_SHIFTING_RATES: ShiftingRates :=
    ShiftingRates(
      map["FEW_ITEMS" := SizeRate("THREE_WHEELER", 1.0, 199.0, 399.0, 149.0),
          "ONE_RK" := SizeRate("MINI_TRUCK", 2.0, 399.0, 799.0, 299.0),
          "ONE_BHK" := SizeRate("PICKUP", 2.0, 699.0, 1299.0, 499.0),
          "TWO_BHK" := SizeRate("TRUCK", 3.0, 999.0, 1899.0, 699.0),
          "THREE_BHK" := SizeRate("TRUCK", 4.0, 1499.0, 2699.0, 999.0)],
      450.0, 700.0, 150.0, 199.0, 10.0)

  const DEFAULT_PRICING: Prices := Prices(RENTAL_RATES, OUTSTATION_RATES, GOODS_OUTSTATION_RATES, DEFAULT_SHIFTING_RATES)

  function Pick<T>(stored: Json, parse: Json -> Result<T>, builtIn: T): T {
    if stored == JNull then builtIn
    else
      var parsed := parse(stored);
      if parsed.Ok? then parsed.value else builtIn
  }

  function PricingOver(row: Json, builtIn: Prices): Prices {
    Prices(
      Pick(Get(row, "rental"), RentalSection, builtIn.rental),
      Pick(Get(row, "outstation"), OutstationSection, builtIn.outstation),
      Pick(Get(row, "goodsOutstation"), GoodsSection, builtIn.goodsOutstation),
      Pick(Get(row, "shifting"), ShiftingSection, builtIn.shifting))
  }

  /** A city's stored sections over the built-in ones. */
  function EffectivePricing(row: Json): Prices { PricingOver(row, DEFAULT_PRICING) }

  /** Complete and in range: every tier, truck and size, and no other. */
  predicate BookOk(p: Prices) {
    RentalsOk(p.rental) && OutstationsOk(p.outstation) && AllGoodsOk(p.goodsOutstation) && ShiftingOk(p.shifting)
  }

  /** A section holds `v`. */
  predicate Holds<S>(stored: Json, ok: S -> bool, reads_: (Json, S) -> bool, v: S) {
    stored != JNull && ok(v) && reads_(stored, v)
  }

  /** The stored value when the JSON holds one in range, else the built-in one. */
  ghost predicate Picked<S(!new)>(stored: Json, ok: S -> bool, reads_: (Json, S) -> bool, builtIn: S, picked: S) {
    if exists v :: Holds(stored, ok, reads_, v) then Holds(stored, ok, reads_, picked) else picked == builtIn
  }

  lemma PickIsPicked<S(!new)>(stored: Json, parse: Json -> Result<S>, ok: S -> bool, reads_: (Json, S) -> bool, builtIn: S)
    requires Exact(parse, ok, reads_) && ok(builtIn)
    ensures Picked(stored, ok, reads_, builtIn, Pick(stored, parse, builtIn)) && ok(Pick(stored, parse, builtIn))
    ensures forall v | Holds(stored, ok, reads_, v) :: v == Pick(stored, parse, builtIn)
  {
    var p := parse(stored);
    if stored != JNull && p.Ok? {
      assert p == Ok(p.value);
      assert Holds(stored, ok, reads_, p.value);
    }
    forall v | Holds(stored, ok, reads_, v) ensures v == Pick(stored, parse, builtIn) { assert p == Ok(v); }
  }

  /** Each section on its own: the stored one when it is in range, whatever else it holds, else the built-in one. */
  ghost predicate SectionsPicked(row: Json, builtIn: Prices, p: Prices) {
    && Picked(Get(row, "rental"), RentalsOk, RentalsRead, builtIn.rental, p.rental)
    && Picked(Get(row, "outstation"), OutstationsOk, OutstationsRead, builtIn.outstation, p.outstation)
    && Picked(Get(row, "goodsOutstation"), AllGoodsOk, AllGoodsRead, builtIn.goodsOutstation, p.goodsOutstation)
    && Picked(Get(row, "shifting"), ShiftingOk, ShiftingReads, builtIn.shifting, p.shifting)
  }

  /** A row that holds a whole book. */
  predicate BookStored(row: Json, p: Prices) {
    && Holds(Get(row, "rental"), RentalsOk, RentalsRead, p.rental) && Holds(Get(row, "outstation"), OutstationsOk, OutstationsRead, p.outstation)
    && Holds(Get(row, "goodsOutstation"), AllGoodsOk, AllGoodsRead, p.goodsOutstation) && Holds(Get(row, "shifting"), ShiftingOk, ShiftingReads, p.shifting)
  }

  lemma PricingOverOk(row: Json, builtIn: Prices)
    requires BookOk(builtIn)
    ensures BookOk(PricingOver(row, builtIn)) && SectionsPicked(row, builtIn, PricingOver(row, builtIn))
    ensures forall p | BookStored(row, p) :: PricingOver(row, builtIn) == p
  {
    RentalSectionExact();
    OutstationSectionExact();
    GoodsSectionExact();
    ShiftingSectionExact();
    PickIsPicked(Get(row, "rental"), RentalSection, RentalsOk, RentalsRead, builtIn.rental);
    PickIsPicked(Get(row, "outstation"), OutstationSection, OutstationsOk, OutstationsRead, builtIn.outstation);
    PickIsPicked(Get(row, "goodsOutstation"), GoodsSection, AllGoodsOk, AllGoodsRead, builtIn.goodsOutstation);
    PickIsPicked(Get(row, "shifting"), ShiftingSection, ShiftingOk, ShiftingReads, builtIn.shifting);
  }

  lemma RentalDefaultsOk()
    ensures RentalsOk(RENTAL_RATES)
  {
    CabRentalOk();
    SedanRentalOk();
    SuvRentalOk();
    KeysAre(CAB_TIERS, RENTAL_RATES);
  }

  lemma CabRentalOk()
    ensures RentalOk(CAB_RENTAL)
  {
  }

  lemma SedanRentalOk()
    ensures RentalOk(SEDAN_RENTAL)
  {
  }

  lemma SuvRentalOk()
    ensures RentalOk(SUV_RENTAL)
  {
  }

  lemma OutstationDefaultsOk()
    ensures OutstationsOk(OUTSTATION_RATES)
  {
    KeysAre(CAB_TIERS, OUTSTATION_RATES);
  }

  lemma GoodsDefaultsOk()
    ensures AllGoodsOk(GOODS_OUTSTATION_RATES)
  {
    KeysAre(GOODS_TRUCKS, GOODS_OUTSTATION_RATES);
  }

  lemma ShiftingDefaultsOk()
    ensures ShiftingOk(DEFAULT_SHIFTING_RATES)
  {
    KeysAre(HOME_SIZES, DEFAULT_SHIFTING_RATES.sizes);
  }

  lemma KeysAre<T>(keys: seq<string>, v: map<string, T>)
    requires (forall k | k in keys :: k in v) && (forall k | k in v :: k in keys)
    ensures v.Keys == (set k | k in keys)
  {
  }

  /** The built-in book is complete and in range. */
  lemma DefaultsOk()
    ensures BookOk(DEFAULT_PRICING)
  {
    RentalDefaultsOk();
    OutstationDefaultsOk();
    GoodsDefaultsOk();
    ShiftingDefaultsOk();
  }

  /**
   * Whatever JSON a city has stored, its price book is complete and in range, and each section is the stored one
   * exactly when that is in range; a row that holds a book gives exactly that book.
   */
  lemma EffectivePricingOk(row: Json)
    ensures BookOk(EffectivePricing(row)) && SectionsPicked(row, DEFAULT_PRICING, EffectivePricing(row))
    ensures forall p | BookStored(row, p) :: EffectivePricing(row) == p
  {
    DefaultsOk();
    PricingOverOk(row, DEFAULT_PRICING);
  }

  // ----------------------------------------------------------------------------------------------- a book as JSON

  function RentalJson(r: RentalRate): (j: Json)
    ensures RentalReads(j, r)
  {
    JObj(map["prices" := JArr(JNums(r.prices)), "extraKm" := JNum(r.extraKm), "extraMin" := JNum(r.extraMin)])
  }

  function OutstationJson(r: OutstationRate): (j: Json)
    ensures OutstationReads(j, r)
  {
    JObj(map["oneWayPerKm" := JNum(r.oneWayPerKm), "roundTripPerKm" := JNum(r.roundTripPerKm), "allowancePerDay" := JNum(r.allowancePerDay),
             "oneWayMinKm" := JNum(r.oneWayMinKm), "roundTripKmPerDay" := JNum(r.roundTripKmPerDay)])
  }

  function GoodsJson(r: GoodsRate): (j: Json)
    ensures GoodsReads(j, r)
  {
    JObj(map["perKm" := JNum(r.perKm), "minKm" := JNum(r.minKm)])
  }

  function SizeJson(r: SizeRate): (j: Json)
    ensures SizeReads(j, r)
  {
    JObj(map["vehicle" := JStr(r.vehicle), "helpers" := JNum(r.helpers),
             "packing" := JObj(map["BASIC" := JNum(r.basic), "FULL" := JNum(r.full)]), "unpack" := JNum(r.unpack)])
  }

  function MapJson<T>(v: map<string, T>, toJson: T -> Json): Json { JObj(map k | k in v :: toJson(v[k])) }

  lemma MapJsonReads<T(!new)>(keys: seq<string>, v: map<string, T>, toJson: T -> Json, reads_: (Json, T) -> bool)
    requires v.Keys == (set k | k in keys) && forall t :: reads_(toJson(t), t)
    ensures MapReads(keys, MapJson(v, toJson), v, reads_)
  {
    forall k | k in keys ensures reads_(Get(MapJson(v, toJson), k), v[k]) { assert k in v.Keys; }
  }

  function ShiftingJson(r: ShiftingRates): (j: Json)
    ensures ExtrasRead(j, r) && j.JObj? && Get(j, "sizes") == MapJson(r.sizes, SizeJson)
  {
    JObj(map["sizes" := MapJson(r.sizes, SizeJson), "helperCity" := JNum(r.helperCity), "helperBetween" := JNum(r.helperBetween),
             "stairsPerFloor" := JNum(r.stairsPerFloor), "dismantlePerPiece" := JNum(r.dismantlePerPiece), "weekendPct" := JNum(r.weekendPct)])
  }

  function RowJson(rental: Json, outstation: Json, goods: Json, shifting: Json): (j: Json)
    ensures Get(j, "rental") == rental && Get(j, "outstation") == outstation && Get(j, "goodsOutstation") == goods && Get(j, "shifting") == shifting
  {
    JObj(map["rental" := rental, "outstation" := outstation, "goodsOutstation" := goods, "shifting" := shifting])
  }

  function BookJson(p: Prices): Json {
    RowJson(MapJson(p.rental, RentalJson), MapJson(p.outstation, OutstationJson), MapJson(p.goodsOutstation, GoodsJson), ShiftingJson(p.shifting))
  }

  /** A book in range, written back section by section, gives the same book: so does a city's effective one. */
  lemma StoredBookReadsBack(p: Prices)
    requires BookOk(p)
    ensures EffectivePricing(BookJson(p)) == p
  {
    MapJsonReads(CAB_TIERS, p.rental, RentalJson, RentalReads);
    MapJsonReads(CAB_TIERS, p.outstation, OutstationJson, OutstationReads);
    MapJsonReads(GOODS_TRUCKS, p.goodsOutstation, GoodsJson, GoodsReads);
    MapJsonReads(HOME_SIZES, p.shifting.sizes, SizeJson, SizeReads);
    assert BookStored(BookJson(p), p);
    EffectivePricingOk(BookJson(p));
  }

  lemma RentalNeverCheaper(p: Prices, tier: string, a: string, b: string)
    requires RentalsOk(p.rental) && tier in CAB_TIERS
    ensures tier in p.rental && |p.rental[tier].prices| == |RENTAL_PACKAGES|
    ensures var x, y := RentalTerms(p.rental[tier], a), RentalTerms(p.rental[tier], b);
            x.Some? && y.Some? && x.value.hours <= y.value.hours ==> x.value.price <= y.value.price
  {
    assert tier in p.rental.Keys;
    var rate := p.rental[tier];
    assert RentalOk(rate);
    if RentalTerms(rate, a).Some? && RentalTerms(rate, b).Some? { LongerPackageNotCheaper(rate, a, b); }
  }

  /** In any city, for any cab tier, a longer rental package never costs less. */
  lemma LongerRentalNeverCheaper(row: Json, tier: string, a: string, b: string)
    requires tier in CAB_TIERS
    ensures var rental := EffectivePricing(row).rental;
            && tier in rental && |rental[tier].prices| == |RENTAL_PACKAGES|
            && var x, y := RentalTerms(rental[tier], a), RentalTerms(rental[tier], b);
               x.Some? && y.Some? && x.value.hours <= y.value.hours ==> x.value.price <= y.value.price
  {
    EffectivePricingOk(row);
    RentalNeverCheaper(EffectivePricing(row), tier, a, b);
  }
}
