/** Surge from live demand and supply, and its smoothing over neighbouring hexagons; exact reals stand for the numbers. */
module Surge {
  import opened JsMath

  type Cell = string

  /** `gridDisk(cell, 1)`. */
  type Neighbours = Cell -> seq<Cell>

  datatype Level = Normal | Busy | High

  datatype SurgeOf = SurgeOf(ratio: real, multiplier: real, level: Level)

  /** Rounded down to 0.05, with the small nudge against rounding noise. */
  function Down05(x: real): real { Floor(x * 20.0 + 0.000000001) as real / 20.0 }

  predicate OnGrid(x: real) { (x * 20.0).Floor as real == x * 20.0 }

  function Ratio(requests: nat, freeDrivers: nat): real {
    requests as real / MaxI(1, freeDrivers) as real
  }

  function SurgeFor(requests: nat, freeDrivers: nat, sensitivity: real, minRequests: int, maxMultiplier: real): SurgeOf {
    var ratio := Ratio(requests, freeDrivers);
    if requests < minRequests || ratio <= 1.0 then SurgeOf(ratio, 1.0, if requests >= minRequests then Busy else Normal)
    else
      var m := Down05(MinR(maxMultiplier, 1.0 + sensitivity * (ratio - 1.0)));
      SurgeOf(ratio, m, if m >= 1.2 || ratio >= 3.0 then High else Busy)
  }

  /** The admin panel's example of the same curve. */
  function SurgeExample(ratio: real, sensitivity: real, maxMultiplier: real): real {
    if !(ratio > 1.0) then 1.0
    else Down05(MinR(maxMultiplier, 1.0 + sensitivity * (ratio - 1.0)))
  }

  lemma DownMono(x: real, y: real)
    requires x <= y
    ensures Down05(x) <= Down05(y)
  {
    var a, b := x * 20.0 + 0.000000001, y * 20.0 + 0.000000001;
    assert a.Floor <= b.Floor;
  }

  lemma DownOnGrid(x: real)
    ensures OnGrid(Down05(x))
    ensures OnGrid(x) ==> Down05(x) == x
  {
    var v := x * 20.0;
    NudgedFloor(v.Floor);
    TwentiethIs(Floor(v + 0.000000001));
    if OnGrid(x) { assert Down05(x) * 20.0 == v; }
  }

  lemma TwentiethIs(n: int)
    ensures (n as real / 20.0) * 20.0 == n as real && ((n as real / 20.0) * 20.0).Floor == n
  {
    assert (n as real / 20.0) * 20.0 == n as real;
  }

  lemma NudgedFloor(k: int)
    ensures (k as real + 0.000000001).Floor == k
  {
    var n := (k as real + 0.000000001).Floor;
    assert n as real <= k as real + 0.000000001 < n as real + 1.0;
    assert n < k + 1 && k < n + 1;
  }

  lemma CurveInRange(ratio: real, sensitivity: real, cap: real)
    requires sensitivity >= 0.0 && cap >= 1.0
    ensures 1.0 <= SurgeExample(ratio, sensitivity, cap) <= Down05(cap) && OnGrid(SurgeExample(ratio, sensitivity, cap))
  {
    OneOnGrid();
    DownOnGrid(1.0);
    DownMono(1.0, cap);
    if ratio > 1.0 {
      MulMono(0.0, ratio - 1.0, sensitivity);
      var raw := MinR(cap, 1.0 + sensitivity * (ratio - 1.0));
      DownMono(1.0, raw);
      DownMono(raw, cap);
      DownOnGrid(raw);
    }
  }

  lemma OneOnGrid()
    ensures OnGrid(1.0)
  {
    assert (20.0 as real).Floor == 20;
  }

  /** On the 0.05 grid, from 1 to the cap rounded down to it: to the cap itself when that is on the grid. */
  lemma SurgeInRange(requests: nat, freeDrivers: nat, sensitivity: real, minRequests: int, cap: real)
    requires sensitivity >= 0.0 && cap >= 1.0
    ensures var m := SurgeFor(requests, freeDrivers, sensitivity, minRequests, cap).multiplier; 1.0 <= m <= Down05(cap) && OnGrid(m)
    ensures OnGrid(Down05(cap)) && (OnGrid(cap) ==> Down05(cap) == cap)
  {
    OneOnGrid();
    DownOnGrid(cap);
    CurveInRange(Ratio(requests, freeDrivers), sensitivity, cap);
    if requests >= minRequests { ExampleIsSurge(requests, freeDrivers, sensitivity, minRequests, cap); }
  }

  /** Above a ratio of 1, with enough bookings, the surge is the curve cut at the cap, less than 0.05 below it. */
  lemma SurgeFollowsCurve(requests: nat, freeDrivers: nat, sensitivity: real, minRequests: int, cap: real)
    ensures var surge, drivers := SurgeFor(requests, freeDrivers, sensitivity, minRequests, cap), if freeDrivers >= 1 then freeDrivers as real else 1.0;
            && surge.ratio * drivers == requests as real
            && (requests < minRequests || surge.ratio <= 1.0 ==> surge.multiplier == 1.0)
            && (requests >= minRequests && surge.ratio > 1.0 ==>
                 var curve := 1.0 + sensitivity * (surge.ratio - 1.0);
                 var cut := if curve <= cap then curve else cap;
                 cut - 0.05 < surge.multiplier <= cut + 0.00000000005)
  {
    RatioIs(requests, freeDrivers);
    CutIsNear(cap, 1.0 + sensitivity * (Ratio(requests, freeDrivers) - 1.0));
  }

  lemma RatioIs(requests: nat, freeDrivers: nat)
    ensures Ratio(requests, freeDrivers) * (if freeDrivers >= 1 then freeDrivers as real else 1.0) == requests as real
  {
    if freeDrivers >= 1 {
      var n := freeDrivers as real;
      assert (requests as real / n) * n == requests as real;
    }
  }

  lemma CutIsNear(cap: real, curve: real)
    ensures var cut := if curve <= cap then curve else cap; cut - 0.05 < Down05(MinR(cap, curve)) <= cut + 0.00000000005
  {
    DownIsNear(MinR(cap, curve));
  }

  lemma DownIsNear(x: real)
    ensures x - 0.05 < Down05(x) <= x + 0.00000000005
  {
    var v := x * 20.0 + 0.000000001;
    assert v - 1.0 < v.Floor as real <= v;
  }

  /** Which level is shown: normal while bookings are too few, high from a surge of 1.2 or three riders a driver on. */
  lemma LevelMeans(requests: nat, freeDrivers: nat, sensitivity: real, minRequests: int, cap: real)
    ensures var s := SurgeFor(requests, freeDrivers, sensitivity, minRequests, cap);
            && (s.level == Normal <==> requests < minRequests)
            && (s.level == High <==> requests >= minRequests && s.ratio > 1.0 && (s.multiplier >= 1.2 || s.ratio >= 3.0))
  {
  }

  lemma CurveMono(r: real, r': real, sensitivity: real, cap: real)
    requires sensitivity >= 0.0 && cap >= 1.0 && r <= r'
    ensures SurgeExample(r, sensitivity, cap) <= SurgeExample(r', sensitivity, cap)
    ensures SurgeExample(r, sensitivity, cap) >= 1.0
  {
    CurveInRange(r, sensitivity, cap);
    CurveInRange(r', sensitivity, cap);
    if r > 1.0 {
      RiseMono(r, r', sensitivity);
      CurveIsCut(r, sensitivity, cap);
      CurveIsCut(r', sensitivity, cap);
      CutMono(cap, Rise(r, sensitivity), Rise(r', sensitivity));
    }
  }

  /** How far the curve rises above 1. */
  function Rise(r: real, sensitivity: real): real { sensitivity * (r - 1.0) }

  lemma RiseMono(r: real, r': real, sensitivity: real)
    requires sensitivity >= 0.0 && r <= r'
    ensures Rise(r, sensitivity) <= Rise(r', sensitivity)
  {
    MulMono(r - 1.0, r' - 1.0, sensitivity);
  }

  lemma CurveIsCut(r: real, sensitivity: real, cap: real)
    requires r > 1.0
    ensures SurgeExample(r, sensitivity, cap) == Down05(MinR(cap, 1.0 + Rise(r, sensitivity)))
  {
  }

  lemma CutMono(cap: real, x: real, y: real)
    requires x <= y
    ensures Down05(MinR(cap, 1.0 + x)) <= Down05(MinR(cap, 1.0 + y))
  {
    DownMono(MinR(cap, 1.0 + x), MinR(cap, 1.0 + y));
  }

  lemma DivMono(x: real, y: real, d: real)
    requires x <= y && d > 0.0
    ensures x / d <= y / d
  {
    var a, b := x / d, y / d;
    assert a * d == x && b * d == y;
    assert a > b ==> (a - b) * d > 0.0;
  }

  lemma DivAnti(x: real, d: real, d': real)
    requires x >= 0.0 && 0.0 < d' <= d
    ensures x / d <= x / d'
  {
    var a, b := x / d, x / d';
    assert a * d == x && b * d' == x;
    assert b >= 0.0 by { assert b < 0.0 ==> b * d' < 0.0; }
    assert b * (d - d') >= 0.0;
    assert b * d == b * d' + b * (d - d');
    assert a > b ==> (a - b) * d > 0.0;
  }

  lemma RatioMono(requests: nat, requests': nat, drivers: nat, drivers': nat)
    requires requests <= requests' && drivers >= drivers'
    ensures Ratio(requests, drivers) <= Ratio(requests', drivers')
  {
    DivMono(requests as real, requests' as real, MaxI(1, drivers) as real);
    DivAnti(requests' as real, MaxI(1, drivers) as real, MaxI(1, drivers') as real);
  }

  function Rank(level: Level): int { match level case Normal => 0 case Busy => 1 case High => 2 }

  /** More bookings or fewer free drivers never lower the surge nor the level shown; a surge is never shown as normal. */
  lemma SurgeMonotone(requests: nat, requests': nat, drivers: nat, drivers': nat, sensitivity: real, minRequests: int, cap: real)
    requires requests <= requests' && drivers >= drivers' && sensitivity >= 0.0 && cap >= 1.0
    ensures SurgeFor(requests, drivers, sensitivity, minRequests, cap).multiplier <= SurgeFor(requests', drivers', sensitivity, minRequests, cap).multiplier
    ensures Rank(SurgeFor(requests, drivers, sensitivity, minRequests, cap).level) <= Rank(SurgeFor(requests', drivers', sensitivity, minRequests, cap).level)
    ensures SurgeFor(requests, drivers, sensitivity, minRequests, cap).multiplier > 1.0 ==> SurgeFor(requests, drivers, sensitivity, minRequests, cap).level != Normal
  {
    RatioMono(requests, requests', drivers, drivers');
    CurveMono(Ratio(requests, drivers), Ratio(requests', drivers'), sensitivity, cap);
    if requests >= minRequests { ExampleIsSurge(requests, drivers, sensitivity, minRequests, cap); }
    if requests' >= minRequests { ExampleIsSurge(requests', drivers', sensitivity, minRequests, cap); }
  }

  /** The panel's example is what the service charges once there are enough bookings. */
  lemma ExampleIsSurge(requests: nat, drivers: nat, sensitivity: real, minRequests: int, cap: real)
    requires requests >= minRequests
    ensures SurgeExample(Ratio(requests, drivers), sensitivity, cap) == SurgeFor(requests, drivers, sensitivity, minRequests, cap).multiplier
  {
  }

  /** One rider alone never makes a surge, whatever the settings. */
  lemma OneRiderNoSurge(requests: nat, drivers: nat, sensitivity: real, minRequests: int, cap: real)
    requires requests <= 1
    ensures SurgeFor(requests, drivers, sensitivity, minRequests, cap).multiplier == 1.0
  {
    RatioMono(requests, 1, drivers, 0);
    assert Ratio(1, 0) == 1.0;
  }

  // ---------------------------------------------------------------------------------------------------- smoothing

  function ValueAt(raw: map<Cell, real>, c: Cell): real { if c in raw then raw[c] else 1.0 }

  function Around(nbr: Neighbours, c: Cell): seq<Cell> { Without(nbr(c), c) }

  function Without(q: seq<Cell>, c: Cell): (r: seq<Cell>)
    ensures forall x :: x in r <==> x in q && x != c
  {
    if q == [] then [] else (if q[0] != c then [q[0]] else []) + Without(q[1..], c)
  }

  function Sum(raw: map<Cell, real>, q: seq<Cell>): real {
    if q == [] then 0.0 else Sum(raw, q[..|q| - 1]) + ValueAt(raw, q[|q| - 1])
  }

  function Mean(raw: map<Cell, real>, q: seq<Cell>): real {
    if q == [] then 1.0 else Sum(raw, q) / |q| as real
  }

  /** The smoothed value of any cell. */
  function Blend(raw: map<Cell, real>, nbr: Neighbours, weight: real, c: Cell): real {
    Down05(Mix(ValueAt(raw, c), Mean(raw, Around(nbr, c)), weight))
  }

  function Mix(own: real, mean: real, weight: real): real { own * (1.0 - weight) + mean * weight }

  lemma MixMono(own: real, own': real, mean: real, mean': real, weight: real)
    requires 0.0 <= weight <= 1.0 && own <= own' && mean <= mean'
    ensures Mix(own, mean, weight) <= Mix(own', mean', weight)
  {
    var up, around := (own' - own) * (1.0 - weight), (mean' - mean) * weight;
    assert up >= 0.0 && around >= 0.0;
    assert Mix(own', mean', weight) - Mix(own, mean, weight) == up + around;
  }

  lemma MixSame(v: real, weight: real)
    ensures Mix(v, v, weight) == v
  {
  }

  /** The surging cells and those next to them. */
  ghost predicate IsCandidate(raw: map<Cell, real>, nbr: Neighbours, c: Cell) {
    exists s :: s in raw && raw[s] > 1.0 && (c == s || c in nbr(s))
  }

  lemma {:induction false} SumMono(raw: map<Cell, real>, raw': map<Cell, real>, q: seq<Cell>)
    requires forall c | c in q :: ValueAt(raw, c) <= ValueAt(raw', c)
    ensures Sum(raw, q) <= Sum(raw', q)
  {
    if q != [] { SumMono(raw, raw', q[..|q| - 1]); }
  }

  lemma {:induction false} SumAtMost(raw: map<Cell, real>, q: seq<Cell>, most: real)
    requires forall c | c in q :: ValueAt(raw, c) <= most
    ensures Sum(raw, q) <= |q| as real * most
  {
    if q != [] {
      SumAtMost(raw, q[..|q| - 1], most);
      assert |q| as real * most == (|q| - 1) as real * most + most;
    }
  }

  lemma MeanMono(raw: map<Cell, real>, raw': map<Cell, real>, q: seq<Cell>)
    requires forall c | c in q :: ValueAt(raw, c) <= ValueAt(raw', c)
    ensures Mean(raw, q) <= Mean(raw', q)
  {
    if q != [] {
      SumMono(raw, raw', q);
      DivMono(Sum(raw, q), Sum(raw', q), |q| as real);
    }
  }

  lemma MeanAtMost(raw: map<Cell, real>, q: seq<Cell>, most: real)
    requires most >= 1.0 && forall c | c in q :: ValueAt(raw, c) <= most
    ensures Mean(raw, q) <= most
  {
    if q != [] {
      SumAtMost(raw, q, most);
      var n := |q| as real;
      DivMono(Sum(raw, q), n * most, n);
      assert (n * most) / n == most;
    }
  }

  /** Higher raw surge anywhere never lowers a smoothed value. */
  lemma BlendMono(raw: map<Cell, real>, raw': map<Cell, real>, nbr: Neighbours, weight: real, c: Cell)
    requires 0.0 <= weight <= 1.0 && forall x :: ValueAt(raw, x) <= ValueAt(raw', x)
    ensures Blend(raw, nbr, weight, c) <= Blend(raw', nbr, weight, c)
  {
    var q := Around(nbr, c);
    MeanMono(raw, raw', q);
    MixMono(ValueAt(raw, c), ValueAt(raw', c), Mean(raw, q), Mean(raw', q), weight);
    DownMono(Mix(ValueAt(raw, c), Mean(raw, q), weight), Mix(ValueAt(raw', c), Mean(raw', q), weight));
  }

  /** A smoothed value is at most the largest raw value around, when that is on the 0.05 grid. */
  lemma BlendAtMost(raw: map<Cell, real>, nbr: Neighbours, weight: real, c: Cell, most: real)
    requires 0.0 <= weight <= 1.0 && most >= 1.0 && OnGrid(most)
    requires ValueAt(raw, c) <= most && forall x | x in nbr(c) :: ValueAt(raw, x) <= most
    ensures Blend(raw, nbr, weight, c) <= most
  {
    var q := Around(nbr, c);
    MeanAtMost(raw, q, most);
    MixMono(ValueAt(raw, c), most, Mean(raw, q), most, weight);
    MixSame(most, weight);
    DownMono(Mix(ValueAt(raw, c), Mean(raw, q), weight), most);
    DownOnGrid(most);
  }

  lemma {:induction false} SumAtLeast(raw: map<Cell, real>, q: seq<Cell>)
    requires forall c | c in q :: ValueAt(raw, c) >= 1.0
    ensures Sum(raw, q) >= |q| as real
  {
    if q != [] { SumAtLeast(raw, q[..|q| - 1]); }
  }

  lemma MeanAtLeast(raw: map<Cell, real>, q: seq<Cell>)
    requires forall c | c in q :: ValueAt(raw, c) >= 1.0
    ensures Mean(raw, q) >= 1.0
  {
    SumAtLeast(raw, q);
    if q != [] {
      var n := |q| as real;
      DivMono(n, Sum(raw, q), n);
      QuotientIs(n, n, 1.0);
    }
  }

  /** Over raw values of at least 1, smoothing keeps of a cell's own value at least its share of what is above 1. */
  lemma BlendKeepsOwnShare(raw: map<Cell, real>, nbr: Neighbours, weight: real, c: Cell)
    requires 0.0 <= weight <= 1.0 && forall x | x in raw :: raw[x] >= 1.0
    ensures Blend(raw, nbr, weight, c) >= Down05(ValueAt(raw, c) * (1.0 - weight) + weight)
  {
    MeanAtLeast(raw, Around(nbr, c));
    MixMono(ValueAt(raw, c), ValueAt(raw, c), 1.0, Mean(raw, Around(nbr, c)), weight);
    DownMono(Mix(ValueAt(raw, c), 1.0, weight), Mix(ValueAt(raw, c), Mean(raw, Around(nbr, c)), weight));
  }

  /** The mean is the sum over the count, and the sum adds up cell by cell, 1 for a cell without a value. */
  lemma {:induction false} SumAddsUp(raw: map<Cell, real>, a: seq<Cell>, b: seq<Cell>)
    ensures Sum(raw, a + b) == Sum(raw, a) + Sum(raw, b)
  {
    if b == [] {
      assert a + b == a;
    } else {
      assert (a + b)[..|a + b| - 1] == a + b[..|b| - 1];
      SumAddsUp(raw, a, b[..|b| - 1]);
    }
  }

  lemma SumOfOne(raw: map<Cell, real>, c: Cell)
    ensures Sum(raw, [c]) == if c in raw then raw[c] else 1.0
  {
    assert [c][..0] == [];
  }

  lemma MeanIsSumOverCount(raw: map<Cell, real>, q: seq<Cell>)
    ensures q != [] ==> Mean(raw, q) * |q| as real == Sum(raw, q)
    ensures q == [] ==> Mean(raw, q) == 1.0
  {
  }

  lemma {:induction false} SumOfOnes(raw: map<Cell, real>, q: seq<Cell>)
    requires forall c | c in q :: c !in raw
    ensures Sum(raw, q) == |q| as real
  {
    if q != [] { SumOfOnes(raw, q[..|q| - 1]); }
  }

  /**
   * One surging cell alone: it keeps 1 - w of its surge, rounded down, and each neighbour gets w of it shared among
   * the neighbour's own neighbours.
   */
  lemma LoneSurgeSpreads(c: Cell, v: real, nbr: Neighbours, weight: real, n: Cell, before: seq<Cell>, after: seq<Cell>)
    requires n != c && Around(nbr, n) == before + [c] + after && c !in before && c !in after
    ensures Blend(map[c := v], nbr, weight, c) == Down05(1.0 + (v - 1.0) * (1.0 - weight))
    ensures Blend(map[c := v], nbr, weight, n) == Down05(1.0 + (v - 1.0) * weight / |Around(nbr, n)| as real)
  {
    var raw := map[c := v];
    var around, k := Around(nbr, n), |Around(nbr, n)| as real;
    SumOfOnes(raw, Around(nbr, c));
    MeanOfOnes(raw, Around(nbr, c));
    assert Mix(v, 1.0, weight) == 1.0 + (v - 1.0) * (1.0 - weight);
    SumAddsUp(raw, before + [c], after);
    SumAddsUp(raw, before, [c]);
    SumOfOne(raw, c);
    SumOfOnes(raw, before);
    SumOfOnes(raw, after);
    ShareOfOne(v, k, weight);
  }

  lemma MeanOfOnes(raw: map<Cell, real>, q: seq<Cell>)
    requires Sum(raw, q) == |q| as real
    ensures Mean(raw, q) == 1.0
  {
  }

  lemma ShareOfOne(v: real, k: real, weight: real)
    requires k > 0.0
    ensures Mix(1.0, (k - 1.0 + v) / k, weight) == 1.0 + (v - 1.0) * weight / k
  {
    var m, q, r := (k - 1.0 + v) / k, (v - 1.0) / k, (v - 1.0) * weight / k;
    QuotientIs(k - 1.0 + v, k, 1.0 + q);
    QuotientIs((v - 1.0) * weight, k, q * weight);
    assert Mix(1.0, 1.0 + q, weight) == 1.0 + q * weight;
  }

  lemma QuotientIs(x: real, k: real, q: real)
    requires k > 0.0 && q * k == x
    ensures x / k == q
  {
    var y := x / k;
    assert y * k == x;
    assert (y - q) * k == 0.0;
  }

  ghost predicate Symmetric(nbr: Neighbours) {
    forall a, b :: a in nbr(b) <==> b in nbr(a)
  }

  /** Cells away from every surging cell smooth to nothing: looking at candidates only misses none. */
  lemma OnlyCandidatesSurge(raw: map<Cell, real>, nbr: Neighbours, weight: real, c: Cell)
    requires 0.0 <= weight <= 1.0 && Symmetric(nbr) && !IsCandidate(raw, nbr, c)
    ensures Blend(raw, nbr, weight, c) <= 1.0
  {
    OneOnGrid();
    forall x | x in nbr(c) ensures ValueAt(raw, x) <= 1.0 {
      assert c in nbr(x);
    }
    BlendAtMost(raw, nbr, weight, c, 1.0);
  }

  /** The smoothed map over all cells: exactly those whose blend is above 1. */
  ghost predicate IsSmoothed(raw: map<Cell, real>, nbr: Neighbours, weight: real, out: map<Cell, real>) {
    forall c {:trigger c in out} :: SmoothedAt(raw, nbr, weight, out, c)
  }

  ghost predicate SmoothedAt(raw: map<Cell, real>, nbr: Neighbours, weight: real, out: map<Cell, real>, c: Cell) {
    && (c in out <==> Blend(raw, nbr, weight, c) > 1.0)
    && (c in out ==> out[c] == Blend(raw, nbr, weight, c) && IsCandidate(raw, nbr, c))
  }

  method Candidates(raw: map<Cell, real>, nbr: Neighbours) returns (cells: set<Cell>)
    ensures forall c :: c in cells <==> IsCandidate(raw, nbr, c)
  {
    cells := {};
    var rest := raw.Keys;
    while rest != {}
      invariant rest <= raw.Keys
      invariant forall c :: c in cells <==> exists s :: s in raw.Keys - rest && raw[s] > 1.0 && (c == s || c in nbr(s))
      decreases rest
    {
      var s :| s in rest;
      if raw[s] > 1.0 { cells := cells + {s} + set n | n in nbr(s); }
      rest := rest - {s};
    }
  }

  /** The cells of `cells` with a value above 1. */
  method Above1(cells: set<Cell>, value: Cell -> real) returns (out: map<Cell, real>)
    ensures forall c {:trigger c in out} :: c in out <==> c in cells && value(c) > 1.0
    ensures forall c | c in out :: out[c] == value(c)
  {
    out := map[];
    var rest := cells;
    while rest != {}
      invariant rest <= cells
      invariant forall c {:trigger c in out} :: c in out <==> c in cells - rest && value(c) > 1.0
      invariant forall c | c in out :: out[c] == value(c)
      decreases rest
    {
      var c :| c in rest;
      var v := value(c);
      if v > 1.0 { out := out[c := v]; }
      rest := rest - {c};
    }
  }

  /** Smooths the cells that can change; with mutual neighbours the result is that of smoothing every cell. */
  method SmoothSurge(raw: map<Cell, real>, nbr: Neighbours, weight: real) returns (out: map<Cell, real>)
    requires 0.0 <= weight <= 1.0 && Symmetric(nbr)
    ensures IsSmoothed(raw, nbr, weight, out)
  {
    var cells := Candidates(raw, nbr);
    out := Above1(cells, c => Blend(raw, nbr, weight, c));
    forall c ensures SmoothedAt(raw, nbr, weight, out, c) {
      if c !in cells { OnlyCandidatesSurge(raw, nbr, weight, c); }
    }
  }

  /** Smoothing never goes above the largest raw value, and rises with the raw map. */
  lemma SmoothedBounds(raw: map<Cell, real>, raw': map<Cell, real>, nbr: Neighbours, weight: real, out: map<Cell, real>, out': map<Cell, real>, most: real)
    requires 0.0 <= weight <= 1.0 && IsSmoothed(raw, nbr, weight, out) && IsSmoothed(raw', nbr, weight, out')
    ensures most >= 1.0 && OnGrid(most) && (forall c | c in raw :: raw[c] <= most) ==> forall c | c in out :: 1.0 < out[c] <= most
    ensures (forall x :: ValueAt(raw, x) <= ValueAt(raw', x)) ==> forall c | c in out :: c in out' && out[c] <= out'[c]
  {
    if most >= 1.0 && OnGrid(most) && forall c | c in raw :: raw[c] <= most {
      forall c | c in out ensures 1.0 < out[c] <= most {
        assert SmoothedAt(raw, nbr, weight, out, c);
        BlendAtMost(raw, nbr, weight, c, most);
      }
    }
    if forall x :: ValueAt(raw, x) <= ValueAt(raw', x) {
      forall c | c in out ensures c in out' && out[c] <= out'[c] {
        assert SmoothedAt(raw, nbr, weight, out, c) && SmoothedAt(raw', nbr, weight, out', c);
        BlendMono(raw, raw', nbr, weight, c);
      }
    }
  }
}
