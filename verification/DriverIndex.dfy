/**
 * The live index of drivers by hexagon: one set of drivers per vehicle kind and cell, the cell each driver is in,
 * heartbeats and busy flags. Geometry (cell of a point, rings around a cell, distance) is a parameter.
 */
module DriverIndex {
  import opened JsMath
  import opened Collections

  type DriverId = string
  type Cell = string

  datatype Point = Point(lat: real, lng: real)

  /** What `driver:alive:<id>` holds. */
  datatype Fix = Fix(pos: Point, time: int, heading: Option<int>)

  datatype CellKey = CellKey(kind: string, cell: Cell)

  datatype Geo = Geo(cellAt: Point -> Cell, rings: (Cell, nat) -> seq<seq<Cell>>, km: (Point, Point) -> real)

  /** `gridDiskDistances(origin, n)` gives rings 0..n, no cell in two of them. */
  ghost predicate GeoOk(g: Geo) {
    forall o, n: nat :: |g.rings(o, n)| == n + 1 && RingsApart(g.rings(o, n))
  }

  ghost predicate RingsApart(rings: seq<seq<Cell>>) {
    forall i, j | 0 <= i < j < |rings| :: Elems(rings[i]) !! Elems(rings[j])
  }

  datatype Index = Index(sets: map<CellKey, set<DriverId>>, cellOf: map<DriverId, CellKey>, alive: map<DriverId, Fix>, busy: map<DriverId, string>)

  function Members(ix: Index, key: CellKey): set<DriverId> {
    if key in ix.sets then ix.sets[key] else {}
  }

  /** Each driver is in exactly the cell set its `driver:cell` entry names, and a live driver has one. */
  ghost predicate Inv(ix: Index) {
    && (forall d, key {:trigger d in Members(ix, key)} :: d in Members(ix, key) <==> d in ix.cellOf && ix.cellOf[d] == key)
    && ix.alive.Keys <= ix.cellOf.Keys
  }

  const Empty: Index := Index(map[], map[], map[], map[])

  function Srem(sets: map<CellKey, set<DriverId>>, key: CellKey, d: DriverId): map<CellKey, set<DriverId>> {
    if key in sets then sets[key := sets[key] - {d}] else sets
  }

  function Sadd(sets: map<CellKey, set<DriverId>>, key: CellKey, d: DriverId): map<CellKey, set<DriverId>> {
    sets[key := (if key in sets then sets[key] else {}) + {d}]
  }

  function Moved(ix: Index, d: DriverId, next: CellKey, fix: Fix): Index {
    var left := if d in ix.cellOf && ix.cellOf[d] != next then Srem(ix.sets, ix.cellOf[d], d) else ix.sets;
    ix.(sets := Sadd(left, next, d), cellOf := ix.cellOf[d := next], alive := ix.alive[d := fix])
  }

  function Removed(ix: Index, d: DriverId): Index {
    ix.(sets := if d in ix.cellOf then Srem(ix.sets, ix.cellOf[d], d) else ix.sets, cellOf := ix.cellOf - {d}, alive := ix.alive - {d})
  }

  /** The PRUNE script: the stale drivers still without a heartbeat leave the given sets and lose their cell. */
  function Pruned(ix: Index, keys: set<CellKey>, stale: set<DriverId>): Index {
    var gone := stale - ix.alive.Keys;
    ix.(sets := map key | key in ix.sets :: if key in keys then ix.sets[key] - gone else ix.sets[key], cellOf := ix.cellOf - gone)
  }

  /** A heartbeat that ran out: nothing else changes until someone looks. */
  function Expired(ix: Index, d: DriverId): Index { ix.(alive := ix.alive - {d}) }

  datatype Event =
    | Move(d: DriverId, key: CellKey, fix: Fix)
    | Leave(d: DriverId)
    | Lapse(d: DriverId)
    | Prune(keys: set<CellKey>, stale: set<DriverId>)
    | SetBusy(d: DriverId, trip: string)
    | FreeBusy(d: DriverId)

  /** The script is only given drivers that the index places in the sets it is given. */
  ghost predicate Enabled(ix: Index, e: Event) {
    e.Prune? ==> forall d | d in e.stale :: d in ix.cellOf && ix.cellOf[d] in e.keys
  }

  function Step(ix: Index, e: Event): Index {
    match e
    case Move(d, key, fix) => Moved(ix, d, key, fix)
    case Leave(d) => Removed(ix, d)
    case Lapse(d) => Expired(ix, d)
    case Prune(keys, stale) => Pruned(ix, keys, stale)
    case SetBusy(d, trip) => ix.(busy := ix.busy[d := trip])
    case FreeBusy(d) => ix.(busy := ix.busy - {d})
  }

  function Exec(ix: Index, es: seq<Event>): Index
    decreases |es|
  {
    if es == [] then ix else Exec(Step(ix, es[0]), es[1..])
  }

  ghost predicate CanExec(ix: Index, es: seq<Event>)
    decreases |es|
  {
    es != [] ==> Enabled(ix, es[0]) && CanExec(Step(ix, es[0]), es[1..])
  }

  lemma StepKeepsInv(ix: Index, e: Event)
    requires Inv(ix) && Enabled(ix, e)
    ensures Inv(Step(ix, e))
  {
    var ix' := Step(ix, e);
    forall d, key ensures d in Members(ix', key) <==> d in ix'.cellOf && ix'.cellOf[d] == key {
      assert d in Members(ix, key) <==> d in ix.cellOf && ix.cellOf[d] == key;
    }
  }

  /** The index is consistent after every run of moves, removals, lapsing heartbeats and pruning. */
  lemma {:induction false} IndexStaysConsistent(ix: Index, es: seq<Event>)
    requires Inv(ix) && CanExec(ix, es)
    ensures Inv(Exec(ix, es))
    decreases |es|
  {
    if es != [] {
      StepKeepsInv(ix, es[0]);
      IndexStaysConsistent(Step(ix, es[0]), es[1..]);
    }
  }

  // ----------------------------------------------------------------------------- the plain scan of all drivers

  datatype Query = Query(kind: string, at: Point, radiusKm: real, limit: int)

  datatype Nearby = Nearby(driverId: DriverId, distanceKm: real, pos: Point, ring: nat)

  function MaxRing(radiusKm: real): nat { MaxI(1, Ceil(radiusKm / 0.92)) }

  function Rings(g: Geo, q: Query): seq<seq<Cell>> { g.rings(g.cellAt(q.at), MaxRing(q.radiusKm)) }

  predicate Fits(g: Geo, ix: Index, q: Query, cells: seq<Cell>, d: DriverId) {
    && d in ix.alive && d !in ix.busy && d in ix.cellOf
    && ix.cellOf[d].kind == q.kind && ix.cellOf[d].cell in cells
    && g.km(ix.alive[d].pos, q.at) <= q.radiusKm
  }

  /** The available drivers of one ring, found by looking at every driver with a heartbeat. */
  function InRing(g: Geo, ix: Index, q: Query, cells: seq<Cell>): set<DriverId> {
    set d | d in ix.alive.Keys && Fits(g, ix, q, cells, d)
  }

  function UpTo(g: Geo, ix: Index, q: Query, rings: seq<seq<Cell>>, n: nat): set<DriverId>
    requires n <= |rings|
  {
    if n == 0 then {} else UpTo(g, ix, q, rings, n - 1) + InRing(g, ix, q, rings[n - 1])
  }

  /** The drivers of one ring whose heartbeat is gone. */
  function DeadInRing(ix: Index, q: Query, cells: seq<Cell>): set<DriverId> {
    set d | d in ix.cellOf.Keys && d !in ix.alive && ix.cellOf[d].kind == q.kind && ix.cellOf[d].cell in cells
  }

  function DeadUpTo(ix: Index, q: Query, rings: seq<seq<Cell>>, n: nat): set<DriverId>
    requires n <= |rings|
  {
    if n == 0 then {} else DeadUpTo(ix, q, rings, n - 1) + DeadInRing(ix, q, rings[n - 1])
  }

  /** How many drivers the first ring, the first two, ... hold. */
  function Counts(g: Geo, ix: Index, q: Query, rings: seq<seq<Cell>>): seq<nat> {
    seq(|rings|, i requires 0 <= i < |rings| => |UpTo(g, ix, q, rings, i + 1)|)
  }

  /** How many rings the search looks at, having looked at `n` without reaching the limit. */
  function Looked(counts: seq<nat>, limit: int, n: nat): (m: nat)
    requires n <= |counts|
    ensures n <= m <= |counts|
    decreases |counts| - n
  {
    if n == |counts| then n
    else if counts[n] >= limit then n + 1
    else Looked(counts, limit, n + 1)
  }

  /** The search stops after the first ring that reaches the limit, else after the last one. */
  lemma {:induction false} LookedIsFirst(counts: seq<nat>, limit: int, n: nat)
    requires n < |counts|
    ensures var m := Looked(counts, limit, n);
            && n < m && (m < |counts| ==> counts[m - 1] >= limit)
            && (forall r | n <= r < m - 1 :: counts[r] < limit)
    decreases |counts| - n
  {
    if counts[n] < limit && n + 1 < |counts| {
      LookedIsFirst(counts, limit, n + 1);
    }
  }

  predicate Before(a: Nearby, b: Nearby) {
    a.ring < b.ring || (a.ring == b.ring && a.distanceKm <= b.distanceKm)
  }

  predicate Sorted(q: seq<Nearby>) {
    forall i, j | 0 <= i < j < |q| :: Before(q[i], q[j])
  }

  ghost predicate DistinctDrivers(q: seq<Nearby>) {
    forall i, j | 0 <= i < j < |q| :: q[i].driverId != q[j].driverId
  }

  /** The array sort by ring, then distance. */
  function Insert(x: Nearby, q: seq<Nearby>): seq<Nearby> {
    if q == [] || Before(x, q[0]) then [x] + q else [q[0]] + Insert(x, q[1..])
  }

  function SortNearby(q: seq<Nearby>): seq<Nearby> {
    if q == [] then [] else Insert(q[0], SortNearby(q[1..]))
  }

  lemma {:induction false} InsertKeeps(x: Nearby, q: seq<Nearby>)
    ensures Elems(Insert(x, q)) == Elems(q) + {x}
    ensures DistinctDrivers(q) && (forall y | y in Elems(q) :: y.driverId != x.driverId) ==> DistinctDrivers(Insert(x, q))
  {
    if q != [] && !Before(x, q[0]) {
      InsertKeeps(x, q[1..]);
      var r := Insert(x, q[1..]);
      assert Elems(q) == {q[0]} + Elems(q[1..]);
      assert Elems([q[0]] + r) == {q[0]} + Elems(r);
      if DistinctDrivers(q) && forall y | y in Elems(q) :: y.driverId != x.driverId {
        forall i | 0 <= i < |r| ensures r[i].driverId != q[0].driverId {
          assert r[i] in Elems(r);
        }
      }
    } else {
      assert Elems([x] + q) == {x} + Elems(q);
      assert forall i | 0 <= i < |q| :: q[i] in Elems(q);
    }
  }

  lemma {:induction false} InsertSorts(x: Nearby, q: seq<Nearby>)
    requires Sorted(q)
    ensures Sorted(Insert(x, q))
  {
    if q != [] && !Before(x, q[0]) {
      InsertSorts(x, q[1..]);
      var r := Insert(x, q[1..]);
      InsertKeeps(x, q[1..]);
      forall i | 0 <= i < |r| ensures Before(q[0], r[i]) {
        assert r[i] in Elems(r);
      }
    }
  }

  lemma {:induction false} SortSorts(q: seq<Nearby>)
    ensures Sorted(SortNearby(q)) && Elems(SortNearby(q)) == Elems(q)
    ensures DistinctDrivers(q) ==> DistinctDrivers(SortNearby(q))
  {
    if q != [] {
      assert Elems(q) == {q[0]} + Elems(q[1..]);
      SortSorts(q[1..]);
      InsertSorts(q[0], SortNearby(q[1..]));
      InsertKeeps(q[0], SortNearby(q[1..]));
    }
  }

  // ---------------------------------------------------------------------------------------- the ring by ring search

  /** What the search reports of a driver found in `ring`. */
  function Report(g: Geo, ix: Index, q: Query, d: DriverId, ring: nat): Nearby
    requires d in ix.alive
  {
    Nearby(d, g.km(ix.alive[d].pos, q.at), ix.alive[d].pos, ring)
  }

  /** `found` holds each of the drivers `want` once, as reported from the ring they are in. */
  ghost predicate Lists(g: Geo, ix: Index, q: Query, rings: seq<seq<Cell>>, found: seq<Nearby>, want: set<DriverId>) {
    && DistinctDrivers(found)
    && (forall f | f in found :: f.driverId in want && f.driverId in ix.alive && f.ring < |rings|
          && f.driverId in InRing(g, ix, q, rings[f.ring]) && f == Report(g, ix, q, f.driverId, f.ring))
    && (forall d | d in want :: exists f :: f in found && f.driverId == d)
  }

  /** An index that lost only drivers without a heartbeat answers every query as before. */
  ghost predicate OnlyDeadGone(ix: Index, ix': Index) {
    && ix'.alive == ix.alive && ix'.busy == ix.busy
    && (forall d | d in ix.alive.Keys :: (d in ix.cellOf <==> d in ix'.cellOf) && (d in ix.cellOf ==> ix'.cellOf[d] == ix.cellOf[d]))
  }

  lemma PruneKeepsAnswers(g: Geo, ix: Index, ix': Index, q: Query, cells: seq<Cell>)
    requires OnlyDeadGone(ix, ix')
    ensures InRing(g, ix', q, cells) == InRing(g, ix, q, cells)
  {
  }

  lemma ListedAreCounted(g: Geo, ix: Index, q: Query, rings: seq<seq<Cell>>, found: seq<Nearby>, want: set<DriverId>)
    requires Lists(g, ix, q, rings, found, want)
    ensures |found| == |want|
  {
    var ids := seq(|found|, i requires 0 <= i < |found| => found[i].driverId);
    DistinctSize(ids);
    forall d | d in want ensures d in ids {
      var f :| f in found && f.driverId == d;
      var i :| 0 <= i < |found| && found[i] == f;
      assert ids[i] == d;
    }
    forall d | d in ids ensures d in want {
      var i :| 0 <= i < |ids| && ids[i] == d;
      assert found[i] in found;
    }
    assert Elems(ids) == want;
  }

  lemma SortedLists(g: Geo, ix: Index, q: Query, rings: seq<seq<Cell>>, found: seq<Nearby>, want: set<DriverId>)
    requires Lists(g, ix, q, rings, found, want)
    ensures Lists(g, ix, q, rings, SortNearby(found), want) && Sorted(SortNearby(found))
  {
    SortSorts(found);
    var r := SortNearby(found);
    forall f ensures f in r <==> f in found { assert f in Elems(r) <==> f in Elems(found); }
  }

  /** Cell set, `driver:cell` entry and heartbeat of every driver but `d` are as before. */
  ghost predicate OthersStay(ix: Index, ix': Index, d: DriverId) {
    && (forall x, key {:trigger x in Members(ix', key)} | x != d :: x in Members(ix', key) <==> x in Members(ix, key))
    && (forall x | x != d :: (x in ix'.cellOf <==> x in ix.cellOf) && (x in ix'.alive <==> x in ix.alive))
    && (forall x | x != d && x in ix.cellOf :: ix'.cellOf[x] == ix.cellOf[x])
    && (forall x | x != d && x in ix.alive :: ix'.alive[x] == ix.alive[x])
  }

  lemma MoveLeavesOthers(ix: Index, d: DriverId, next: CellKey, fix: Fix)
    ensures var ix' := Moved(ix, d, next, fix);
            && d in ix'.alive && ix'.alive[d] == fix && d in ix'.cellOf && ix'.cellOf[d] == next && ix'.busy == ix.busy && OthersStay(ix, ix', d)
  {
  }

  lemma RemoveLeavesOthers(ix: Index, d: DriverId)
    ensures var ix' := Removed(ix, d); d !in ix'.alive && d !in ix'.cellOf && ix'.busy == ix.busy && OthersStay(ix, ix', d)
  {
  }

  // ------------------------------------------------------------------------------------- what an answer says, in full

  /** Driver `d` can be offered from a ring: live, free, of the kind asked for, in a cell of the ring, and near enough. */
  ghost predicate Offerable(g: Geo, ix: Index, q: Query, ring: seq<Cell>, d: DriverId) {
    && d in ix.alive && d !in ix.busy && d in ix.cellOf && ix.cellOf[d].kind == q.kind && ix.cellOf[d].cell in ring
    && g.km(ix.alive[d].pos, q.at) <= q.radiusKm
  }

  /** Every shorter search had fewer than `limit` drivers, and this one stopped for having enough or for want of rings. */
  ghost predicate Enough(q: Query, rings: seq<seq<Cell>>, found: seq<Nearby>, looked: nat) {
    && 0 < looked <= |rings| && (looked == |rings| || |found| >= q.limit)
    && (forall n | 0 < n < looked :: |Within(found, n)| < q.limit)
  }

  /** Exactly the drivers the first `looked` rings offer, each once, with position, distance and ring. */
  ghost predicate ExactlyOffered(g: Geo, ix: Index, q: Query, rings: seq<seq<Cell>>, found: seq<Nearby>, looked: nat) {
    && looked <= |rings|
    && (forall i | 0 <= i < |found| :: found[i].ring < looked && Offerable(g, ix, q, rings[found[i].ring], found[i].driverId)
          && found[i].pos == ix.alive[found[i].driverId].pos && found[i].distanceKm == g.km(found[i].pos, q.at))
    && (forall r, d | 0 <= r < looked && Offerable(g, ix, q, rings[r], d) ::
          exists i :: 0 <= i < |found| && found[i].driverId == d && found[i].ring == r)
    && (forall i, j | 0 <= i < j < |found| :: found[i].driverId != found[j].driverId)
  }

  /** By ring, then distance. */
  ghost predicate NearestFirst(found: seq<Nearby>) {
    forall i, j | 0 <= i < j < |found| ::
      found[i].ring < found[j].ring || (found[i].ring == found[j].ring && found[i].distanceKm <= found[j].distanceKm)
  }

  /** What an answer to the query from the first `looked` of these rings is. */
  ghost predicate AnswersFrom(g: Geo, ix: Index, q: Query, rings: seq<seq<Cell>>, found: seq<Nearby>, looked: nat) {
    Enough(q, rings, found, looked) && ExactlyOffered(g, ix, q, rings, found, looked) && NearestFirst(found)
  }

  ghost predicate Answers(g: Geo, ix: Index, q: Query, found: seq<Nearby>, looked: nat) {
    AnswersFrom(g, ix, q, Rings(g, q), found, looked)
  }

  /** The drivers found in the first `n` rings. */
  function Within(found: seq<Nearby>, n: nat): set<DriverId> {
    set i | 0 <= i < |found| && found[i].ring < n :: found[i].driverId
  }

  lemma {:induction false} UpToMeans(g: Geo, ix: Index, q: Query, rings: seq<seq<Cell>>, n: nat, d: DriverId)
    requires n <= |rings|
    ensures d in UpTo(g, ix, q, rings, n) <==> exists r :: 0 <= r < n && d in InRing(g, ix, q, rings[r])
  {
    if n > 0 { UpToMeans(g, ix, q, rings, n - 1, d); }
  }

  lemma OneRing(g: Geo, ix: Index, q: Query, rings: seq<seq<Cell>>, d: DriverId, r: nat, r': nat)
    requires RingsApart(rings) && r < |rings| && r' < |rings| && d in InRing(g, ix, q, rings[r]) && d in InRing(g, ix, q, rings[r'])
    ensures r == r'
  {
    assert ix.cellOf[d].cell in Elems(rings[r]) && ix.cellOf[d].cell in Elems(rings[r']);
  }

  lemma ListedAt(g: Geo, ix: Index, q: Query, rings: seq<seq<Cell>>, found: seq<Nearby>, looked: nat, r: nat, d: DriverId) returns (i: nat)
    requires RingsApart(rings) && r < looked <= |rings| && Lists(g, ix, q, rings, found, UpTo(g, ix, q, rings, looked))
    requires d in InRing(g, ix, q, rings[r])
    ensures i < |found| && found[i].driverId == d && found[i].ring == r
  {
    UpToMeans(g, ix, q, rings, looked, d);
    var f :| f in found && f.driverId == d;
    OneRing(g, ix, q, rings, d, r, f.ring);
    i :| 0 <= i < |found| && found[i] == f;
  }

  lemma UpToIsWithin(g: Geo, ix: Index, q: Query, rings: seq<seq<Cell>>, found: seq<Nearby>, n: nat, m: nat)
    requires RingsApart(rings) && n <= m <= |rings| && Lists(g, ix, q, rings, found, UpTo(g, ix, q, rings, m))
    ensures UpTo(g, ix, q, rings, n) <= Within(found, n)
  {
    forall d | d in UpTo(g, ix, q, rings, n) ensures d in Within(found, n) {
      UpToMeans(g, ix, q, rings, n, d);
      var r :| 0 <= r < n && d in InRing(g, ix, q, rings[r]);
      var i := ListedAt(g, ix, q, rings, found, m, r, d);
    }
  }

  lemma WithinIsUpTo(g: Geo, ix: Index, q: Query, rings: seq<seq<Cell>>, found: seq<Nearby>, n: nat, m: nat)
    requires RingsApart(rings) && n <= m <= |rings| && Lists(g, ix, q, rings, found, UpTo(g, ix, q, rings, m))
    ensures Within(found, n) == UpTo(g, ix, q, rings, n)
  {
    UpToIsWithin(g, ix, q, rings, found, n, m);
    forall i | 0 <= i < |found| && found[i].ring < n ensures found[i].driverId in UpTo(g, ix, q, rings, n) {
      assert found[i] in found;
      UpToMeans(g, ix, q, rings, n, found[i].driverId);
    }
  }

  lemma ListedIsOffered(g: Geo, ix: Index, q: Query, rings: seq<seq<Cell>>, found: seq<Nearby>, looked: nat)
    requires RingsApart(rings) && looked <= |rings| && Lists(g, ix, q, rings, found, UpTo(g, ix, q, rings, looked))
    ensures ExactlyOffered(g, ix, q, rings, found, looked)
  {
    forall i | 0 <= i < |found|
      ensures found[i].ring < looked && Offerable(g, ix, q, rings[found[i].ring], found[i].driverId)
      ensures found[i].pos == ix.alive[found[i].driverId].pos && found[i].distanceKm == g.km(found[i].pos, q.at)
    {
      assert found[i] in found;
      RingIsLooked(g, ix, q, rings, found[i].driverId, found[i].ring, looked);
    }
    forall r, d | 0 <= r < looked && Offerable(g, ix, q, rings[r], d)
      ensures exists i :: 0 <= i < |found| && found[i].driverId == d && found[i].ring == r
    {
      assert d in InRing(g, ix, q, rings[r]);
      var i := ListedAt(g, ix, q, rings, found, looked, r, d);
    }
  }

  lemma CountAt(g: Geo, ix: Index, q: Query, rings: seq<seq<Cell>>, n: nat)
    requires n < |rings|
    ensures Counts(g, ix, q, rings)[n] == |UpTo(g, ix, q, rings, n + 1)|
  {
  }

  lemma CountIs(g: Geo, ix: Index, q: Query, rings: seq<seq<Cell>>, found: seq<Nearby>, n: nat, looked: nat)
    requires RingsApart(rings) && 0 < n <= looked <= |rings| && Lists(g, ix, q, rings, found, UpTo(g, ix, q, rings, looked))
    ensures Counts(g, ix, q, rings)[n - 1] == |Within(found, n)|
    ensures n == looked ==> |Within(found, n)| == |found|
  {
    CountAt(g, ix, q, rings, n - 1);
    WithinIsUpTo(g, ix, q, rings, found, n, looked);
    if n == looked { ListedAreCounted(g, ix, q, rings, found, UpTo(g, ix, q, rings, looked)); }
  }

  lemma CountsEnough(counts: seq<nat>, q: Query, rings: seq<seq<Cell>>, found: seq<Nearby>, looked: nat)
    requires rings != [] && |counts| == |rings| && looked == Looked(counts, q.limit, 0)
    requires forall n | 0 < n <= looked :: counts[n - 1] == |Within(found, n)|
    requires |Within(found, looked)| == |found|
    ensures Enough(q, rings, found, looked)
  {
    LookedIsFirst(counts, q.limit, 0);
    assert counts[looked - 1] == |found|;
    forall n | 0 < n < looked ensures |Within(found, n)| < q.limit { assert counts[n - 1] < q.limit; }
  }

  lemma LookedIsEnough(g: Geo, ix: Index, q: Query, rings: seq<seq<Cell>>, found: seq<Nearby>, looked: nat)
    requires RingsApart(rings) && rings != [] && looked == Looked(Counts(g, ix, q, rings), q.limit, 0)
    requires Lists(g, ix, q, rings, found, UpTo(g, ix, q, rings, looked))
    ensures Enough(q, rings, found, looked)
  {
    var counts := Counts(g, ix, q, rings);
    LookedIsFirst(counts, q.limit, 0);
    forall n | 0 < n <= looked ensures counts[n - 1] == |Within(found, n)| { CountIs(g, ix, q, rings, found, n, looked); }
    CountIs(g, ix, q, rings, found, looked, looked);
    CountsEnough(counts, q, rings, found, looked);
  }

  lemma SortedMeans(found: seq<Nearby>)
    requires Sorted(found)
    ensures NearestFirst(found)
  {
    forall i, j | 0 <= i < j < |found|
      ensures found[i].ring < found[j].ring || (found[i].ring == found[j].ring && found[i].distanceKm <= found[j].distanceKm)
    {
      assert Before(found[i], found[j]);
    }
  }

  lemma SearchAnswers(g: Geo, ix: Index, q: Query, rings: seq<seq<Cell>>, found: seq<Nearby>) returns (looked: nat)
    requires RingsApart(rings) && rings != [] && Sorted(found)
    requires Lists(g, ix, q, rings, found, UpTo(g, ix, q, rings, Looked(Counts(g, ix, q, rings), q.limit, 0)))
    ensures AnswersFrom(g, ix, q, rings, found, looked)
  {
    looked := Looked(Counts(g, ix, q, rings), q.limit, 0);
    ListedIsOffered(g, ix, q, rings, found, looked);
    LookedIsEnough(g, ix, q, rings, found, looked);
    SortedMeans(found);
  }

  lemma RingIsLooked(g: Geo, ix: Index, q: Query, rings: seq<seq<Cell>>, d: DriverId, ring: nat, looked: nat)
    requires RingsApart(rings) && looked <= |rings| && ring < |rings|
    requires d in UpTo(g, ix, q, rings, looked) && d in InRing(g, ix, q, rings[ring])
    ensures ring < looked
  {
    UpToMeans(g, ix, q, rings, looked, d);
    var r :| 0 <= r < looked && d in InRing(g, ix, q, rings[r]);
    OneRing(g, ix, q, rings, d, r, ring);
  }

  /** The rings reach as far as the radius, 0.92 km a ring, and no ring further than needed; one ring at least. */
  lemma RingsReachRadius(radiusKm: real)
    ensures var k := MaxRing(radiusKm);
            k >= 1 && k as real * 0.92 >= radiusKm && (k > 1 ==> (k - 1) as real * 0.92 < radiusKm)
  {
    var x := radiusKm / 0.92;
    assert x * 0.92 == radiusKm;
    assert (Ceil(x) - 1) as real < x <= Ceil(x) as real;
  }

  /** A free driver just updated is found where they are: from their ring, once it is looked at, with the position sent. */
  lemma UpdatedIsFound(g: Geo, ix: Index, d: DriverId, kind: string, pos: Point, time: int, heading: Option<int>, q: Query, found: seq<Nearby>, looked: nat, r: nat)
    requires d !in ix.busy && q.kind == kind && g.km(pos, q.at) <= q.radiusKm
    requires var ix' := Moved(ix, d, CellKey(kind, g.cellAt(pos)), Fix(pos, time, heading)); Answers(g, ix', q, found, looked)
    requires r < looked && g.cellAt(pos) in Rings(g, q)[r]
    ensures exists i :: 0 <= i < |found| && found[i] == Nearby(d, g.km(pos, q.at), pos, r)
  {
    var ix' := Moved(ix, d, CellKey(kind, g.cellAt(pos)), Fix(pos, time, heading));
    assert Offerable(g, ix', q, Rings(g, q)[r], d);
    var i :| 0 <= i < |found| && found[i].driverId == d && found[i].ring == r;
    assert found[i] == Nearby(d, g.km(pos, q.at), pos, r);
  }

  /** Removed, busy or without a heartbeat, a driver is in no answer. */
  lemma GoneIsNotFound(g: Geo, ix: Index, d: DriverId, q: Query, found: seq<Nearby>, looked: nat, trip: string)
    requires Answers(g, Removed(ix, d), q, found, looked) || Answers(g, Expired(ix, d), q, found, looked) || Answers(g, Step(ix, SetBusy(d, trip)), q, found, looked)
    ensures forall i | 0 <= i < |found| :: found[i].driverId != d
  {
  }

  class DriverLocation {
    const geo: Geo
    var sets: map<CellKey, set<DriverId>>
    var cellOf: map<DriverId, CellKey>
    var alive: map<DriverId, Fix>
    var busy: map<DriverId, string>

    function State(): Index
      reads this
    {
      Index(sets, cellOf, alive, busy)
    }

    constructor (geo: Geo)
      ensures this.geo == geo && State() == Empty && Inv(State())
    {
      this.geo := geo;
      sets, cellOf, alive, busy := map[], map[], map[], map[];
    }

    method Update(d: DriverId, kind: string, pos: Point, time: int, heading: Option<int>)
      modifies this
      ensures State() == Moved(old(State()), d, CellKey(kind, geo.cellAt(pos)), Fix(pos, time, heading))
      ensures old(Inv(State())) ==> Inv(State()) && d in Members(State(), CellKey(kind, geo.cellAt(pos)))
      ensures d in alive && alive[d] == Fix(pos, time, heading) && d in cellOf && cellOf[d] == CellKey(kind, geo.cellAt(pos))
      ensures busy == old(busy) && OthersStay(old(State()), State(), d)
    {
      ghost var ix := State();
      var next := CellKey(kind, geo.cellAt(pos));
      if d in cellOf && cellOf[d] != next { sets := Srem(sets, cellOf[d], d); }
      sets := Sadd(sets, next, d);
      cellOf := cellOf[d := next];
      alive := alive[d := Fix(pos, time, heading)];
      MoveLeavesOthers(ix, d, next, Fix(pos, time, heading));
      if Inv(ix) { StepKeepsInv(ix, Move(d, next, Fix(pos, time, heading))); }
    }

    method Remove(d: DriverId)
      modifies this
      ensures State() == Removed(old(State()), d)
      ensures old(Inv(State())) ==> Inv(State()) && forall key :: d !in Members(State(), key)
      ensures d !in alive && d !in cellOf && busy == old(busy) && OthersStay(old(State()), State(), d)
    {
      ghost var ix := State();
      if d in cellOf { sets := Srem(sets, cellOf[d], d); }
      alive, cellOf := alive - {d}, cellOf - {d};
      RemoveLeavesOthers(ix, d);
      if Inv(ix) { StepKeepsInv(ix, Leave(d)); }
    }

    /** Marks the driver busy with `trip`; refused only while they are busy with another one. */
    method ClaimBusy(d: DriverId, trip: string) returns (ok: bool)
      modifies this`busy
      ensures ok <==> (d in old(busy) ==> old(busy)[d] == trip)
      ensures busy == if ok then old(busy)[d := trip] else old(busy)
    {
      ok := !(d in busy && busy[d] != trip);
      if ok { busy := busy[d := trip]; }
    }

    /** Frees the driver only from this very trip. */
    method ReleaseBusy(d: DriverId, trip: string) returns (freed: bool)
      modifies this`busy
      ensures freed <==> d in old(busy) && old(busy)[d] == trip
      ensures busy == if freed then old(busy) - {d} else old(busy)
    {
      freed := d in busy && busy[d] == trip;
      if freed { busy := busy - {d}; }
    }

    method PruneStale(keys: set<CellKey>, stale: set<DriverId>)
      modifies this`sets, this`cellOf
      ensures State() == Pruned(old(State()), keys, stale)
    {
      var gone := stale - alive.Keys;
      sets := map key | key in sets :: if key in keys then sets[key] - gone else sets[key];
      cellOf := cellOf - gone;
    }

    /** The union of one ring's cell sets: everyone the index places there. */
    method RingMembers(kind: string, cells: seq<Cell>) returns (ids: set<DriverId>, keys: set<CellKey>)
      requires Inv(State())
      ensures keys == set c | c in cells :: CellKey(kind, c)
      ensures ids == set d | d in cellOf.Keys && cellOf[d] in keys
    {
      ids := {};
      keys := set c | c in cells :: CellKey(kind, c);
      for i := 0 to |cells|
        invariant forall d :: d in ids <==> d in cellOf && cellOf[d].kind == kind && cellOf[d].cell in cells[..i]
      {
        ids := ids + Members(State(), CellKey(kind, cells[i]));
        assert cells[..i + 1] == cells[..i] + [cells[i]];
      }
      assert cells[..|cells|] == cells;
    }

    /** One driver of the ring: reported when available and near enough. */
    method Consider(q: Query, rings: seq<seq<Cell>>, ring: nat, d: DriverId, found0: seq<Nearby>, ghost ix: Index, ghost want: set<DriverId>)
      returns (found: seq<Nearby>)
      requires ring < |rings| && OnlyDeadGone(ix, State()) && d in cellOf && cellOf[d].kind == q.kind && cellOf[d].cell in rings[ring]
      requires d !in want && Lists(geo, ix, q, rings, found0, want)
      ensures Lists(geo, ix, q, rings, found, if d in InRing(geo, ix, q, rings[ring]) then want + {d} else want)
      ensures forall f | f in found :: f in found0 || f.ring == ring
    {
      found := found0;
      if d in alive && d !in busy {
        var distanceKm := geo.km(alive[d].pos, q.at);
        if distanceKm <= q.radiusKm {
          var f := Nearby(d, distanceKm, alive[d].pos, ring);
          found := found0 + [f];
          assert d in InRing(geo, ix, q, rings[ring]);
          assert found[|found0|] == f;
          forall x | x in want ensures exists y :: y in found && y.driverId == x {
            var y :| y in found0 && y.driverId == x;
            assert y in found;
          }
          forall i | 0 <= i < |found0| ensures found0[i].driverId != d { assert found0[i] in found0; }
        }
      }
    }

    /** One ring: everyone available in it is added to `found`, everyone without a heartbeat is stale. */
    method ScanRing(q: Query, rings: seq<seq<Cell>>, ring: nat, ids: set<DriverId>, found0: seq<Nearby>, ghost ix: Index, ghost want: set<DriverId>)
      returns (found: seq<Nearby>, stale: set<DriverId>)
      requires ring < |rings| && OnlyDeadGone(ix, State())
      requires forall d :: d in ids <==> d in cellOf && cellOf[d].kind == q.kind && cellOf[d].cell in rings[ring]
      requires Lists(geo, ix, q, rings, found0, want) && want !! ids
      ensures Lists(geo, ix, q, rings, found, want + InRing(geo, ix, q, rings[ring]))
      ensures stale == ids - alive.Keys
      ensures forall f | f in found :: f in found0 || f.ring == ring
    {
      found, stale := found0, {};
      var rest := ids;
      ghost var here, now := InRing(geo, ix, q, rings[ring]), want;
      while rest != {}
        invariant rest <= ids && stale == ids - rest - alive.Keys
        invariant now == want + (here - rest) && Lists(geo, ix, q, rings, found, now)
        invariant forall f | f in found :: f in found0 || f.ring == ring
        decreases rest
      {
        var d :| d in rest;
        if d !in alive { stale := stale + {d}; }
        found := Consider(q, rings, ring, d, found, ix, now);
        now := if d in here then now + {d} else now;
        rest := rest - {d};
      }
      assert here - rest == here;
    }

    /**
     * The available drivers around a point, ring by ring: exactly those the plain scan finds in the rings looked
     * at, each once, nearest ring first, then by distance. On the way the index loses only drivers whose heartbeat
     * is gone, so no later answer changes.
     */
    method FindNearby(q: Query) returns (found: seq<Nearby>, ghost looked: nat)
      requires GeoOk(geo) && Inv(State())
      modifies this`sets, this`cellOf
      ensures Answers(geo, old(State()), q, found, looked)
      ensures var rings := Rings(geo, q); var ix := old(State());
              Lists(geo, ix, q, rings, found, UpTo(geo, ix, q, rings, Looked(Counts(geo, ix, q, rings), q.limit, 0)))
      ensures Inv(State()) && OnlyDeadGone(old(State()), State())
      ensures var rings := Rings(geo, q); var ix := old(State());
              cellOf == ix.cellOf - DeadUpTo(ix, q, rings, Looked(Counts(geo, ix, q, rings), q.limit, 0))
    {
      ghost var ix := State();
      var rings := geo.rings(geo.cellAt(q.at), MaxRing(q.radiusKm));
      assert RingsApart(rings);
      found := SearchRings(q, rings);
      SortedLists(geo, ix, q, rings, found, UpTo(geo, ix, q, rings, Looked(Counts(geo, ix, q, rings), q.limit, 0)));
      found := SortNearby(found);
      looked := SearchAnswers(geo, ix, q, rings, found);
    }

    /** Ring after ring, until enough are found. */
    method SearchRings(q: Query, rings: seq<seq<Cell>>) returns (found: seq<Nearby>)
      requires RingsApart(rings) && Inv(State())
      modifies this`sets, this`cellOf
      ensures Searched(geo, old(State()), State(), q, rings, found, Looked(Counts(geo, old(State()), q, rings), q.limit, 0))
    {
      ghost var ix := State();
      ghost var counts := Counts(geo, ix, q, rings);
      ghost var looked := Looked(counts, q.limit, 0);
      found := [];
      var ring, more := 0, true;
      while ring < |rings| && more
        invariant Searched(geo, ix, State(), q, rings, found, ring)
        invariant looked == if more then Looked(counts, q.limit, ring) else ring
        decreases |rings| - ring
      {
        found := SearchRing(q, rings, ring, found, ix);
        assert |found| == counts[ring];
        more := !(|found| >= q.limit);
        ring := ring + 1;
      }
    }

    /** One ring: its members, those available added to `found`, those without a heartbeat pruned. */
    method SearchRing(q: Query, rings: seq<seq<Cell>>, ring: nat, found0: seq<Nearby>, ghost ix: Index) returns (found: seq<Nearby>)
      requires ring < |rings| && RingsApart(rings) && Searched(geo, ix, State(), q, rings, found0, ring)
      modifies this`sets, this`cellOf
      ensures Searched(geo, ix, State(), q, rings, found, ring + 1)
      ensures |found| == |UpTo(geo, ix, q, rings, ring + 1)|
    {
      ghost var want, before := UpTo(geo, ix, q, rings, ring), State();
      var ids, keys := RingMembers(q.kind, rings[ring]);
      NotInEarlierRing(geo, ix, State(), q, rings, found0, want, ring, ids);
      var stale;
      found, stale := ScanRing(q, rings, ring, ids, found0, ix, want);
      PruneStale(set c | c in rings[ring] :: CellKey(q.kind, c), stale);
      RingPruned(ix, before, q, rings, ring, keys, stale);
      ListedAreCounted(geo, ix, q, rings, found, UpTo(geo, ix, q, rings, ring + 1));
    }
  }

  lemma RingPruned(ix: Index, ix': Index, q: Query, rings: seq<seq<Cell>>, ring: nat, keys: set<CellKey>, stale: set<DriverId>)
    requires ring < |rings| && Inv(ix') && OnlyDeadGone(ix, ix') && ix'.cellOf == ix.cellOf - DeadUpTo(ix, q, rings, ring)
    requires keys == set c | c in rings[ring] :: CellKey(q.kind, c)
    requires stale == (set d | d in ix'.cellOf.Keys && ix'.cellOf[d] in keys) - ix'.alive.Keys
    ensures var p := Pruned(ix', keys, stale);
            Inv(p) && OnlyDeadGone(ix, p) && p.cellOf == ix.cellOf - DeadUpTo(ix, q, rings, ring + 1)
  {
    StepKeepsInv(ix', Prune(keys, stale));
    assert stale == DeadInRing(ix, q, rings[ring]) - DeadUpTo(ix, q, rings, ring);
  }

  /** The search after its first `n` rings: what it has found, and what the index has lost. */
  ghost predicate Searched(g: Geo, ix: Index, ix': Index, q: Query, rings: seq<seq<Cell>>, found: seq<Nearby>, n: nat) {
    && n <= |rings| && Inv(ix') && OnlyDeadGone(ix, ix')
    && Lists(g, ix, q, rings, found, UpTo(g, ix, q, rings, n))
    && (forall f | f in found :: f.ring < n)
    && ix'.cellOf == ix.cellOf - DeadUpTo(ix, q, rings, n)
  }

  /** The rings share no cell, so nobody of this ring was found in an earlier one. */
  lemma NotInEarlierRing(g: Geo, ix: Index, ix': Index, q: Query, rings: seq<seq<Cell>>, found: seq<Nearby>, want: set<DriverId>, ring: nat, ids: set<DriverId>)
    requires ring < |rings| && RingsApart(rings) && OnlyDeadGone(ix, ix')
    requires Lists(g, ix, q, rings, found, want) && forall f | f in found :: f.ring < ring
    requires forall d | d in ids :: d in ix'.cellOf && ix'.cellOf[d].cell in rings[ring]
    ensures want !! ids
  {
    forall d | d in want ensures d !in ids {
      var f :| f in found && f.driverId == d;
      assert Elems(rings[f.ring]) !! Elems(rings[ring]);
      assert ix.cellOf[d].cell in Elems(rings[f.ring]);
    }
  }
}
